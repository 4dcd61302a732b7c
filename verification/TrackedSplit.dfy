/** For how many voters the code never commits different entries at one index: with four voters or more, in any
    number, there is a run in which it does. */
module TrackedSplit {
  import opened Ids
  import opened Quorum
  import opened ProgressSpec
  import opened ProgressRuns
  import F = ProgressFaults
  import opened ProgressSplit
  import opened EngineSpec
  import opened Cluster
  import opened ClusterVotes
  import opened LeaderProgress
  import opened TrackedCluster
  import opened TrackedSafety
  import opened LargeCluster
  import R = TrackedRuns

  type Entries = seq<IdVal<Option<LogId>>>

  /** The log of the first leader with vote `a`. */
  function Whole(a: LeaderId): (log: Log)
    ensures |log| == 5
  {
    [GENESIS, a, a, a, a]
  }

  lemma PartsAreOrdered(a: LeaderId, i: nat, j: nat)
    requires i <= j <= 5 && a.term > 0
    ensures Whole(a)[..i] <= Whole(a)[..j] && OptLe(LastId(Whole(a)[..i]), LastId(Whole(a)[..j]))
    ensures i >= 2 ==> LastId(Whole(a)[..i]) == Id(a, i - 1)
  {
    assert Whole(a)[..j][..i] == Whole(a)[..i];
  }

  // ----- The first leader writes and replicates -----------------------------------

  /** `x` follows the first leader and has its first `h` entries. */
  ghost predicate Held(cfg: Config, c: Tracked, x: NodeId, h: nat)
    requires Large(cfg)
  {
    && x in c.sys.nodes && h <= 5
    && Trails(c.sys.nodes[x], VoteA(cfg), Whole(VoteA(cfg))[..h], FirstTime(cfg) + cfg.leaderLease)
    && (h > 1 ==> c.sys.nodes[x].vote == Vote(VoteA(cfg), true))
  }

  ghost predicate FirstLeads(cfg: Config, c: Tracked, committed: Option<LogId>)
    requires Large(cfg)
  {
    c.sys.now == FirstTime(cfg) && Leads(cfg, c, Role(cfg, 0), VoteA(cfg), Whole(VoteA(cfg)), committed)
  }

  lemma Written(cfg: Config) returns (c: Tracked)
    requires Large(cfg)
    ensures FirstLeads(cfg, c, None) && c.tracks[Role(cfg, 0)] == NewTrack(cfg)
    ensures forall x :: x in cfg.members && x != Role(cfg, 0) ==> Held(cfg, c, x, if x == Role(cfg, 1) then 1 else 0)
  {
    hide R.Reachable, Trails, NewTrack, Role, Tracks;
    var q, a := Role(cfg, 0), VoteA(cfg);
    var c0 := FirstElected(cfg);
    c := R.WriteEntries(cfg, c0, q, 3);
    R.LeaderAppendLeads(c0.sys.nodes[q], 3);
    assert [GENESIS, a] + Repeat(a, 3) == Whole(a);
    forall x | x in cfg.members && x != q ensures Held(cfg, c, x, if x == Role(cfg, 1) then 1 else 0) {
      TrailsLonger(c0.sys.nodes[x], a, StartLog(cfg, x), FirstTime(cfg), FirstTime(cfg) + cfg.leaderLease);
      assert Whole(a)[..0] == [] && Whole(a)[..1] == FIRST;
    }
  }

  /** The voters `xs` take the first `count` entries. */
  lemma Replicated(cfg: Config, c: Tracked, xs: seq<NodeId>, h: nat, count: nat) returns (c': Tracked)
    requires Large(cfg) && FirstLeads(cfg, c, None) && NoDuplicates(xs) && h <= count && 2 <= count <= 5
    requires forall x :: x in xs ==> x in cfg.members && x != Role(cfg, 0) && Held(cfg, c, x, h)
    ensures FirstLeads(cfg, c', None) && R.Continues(c, c') && R.SameTracks(c, c')
    ensures forall x :: x in xs ==> Held(cfg, c', x, count)
    ensures forall x :: x in xs ==> Told(c', Role(cfg, 0), VoteA(cfg), Whole(VoteA(cfg)), x, count - 1)
    ensures forall x :: x in c.sys.nodes && x !in xs ==> c'.sys.nodes[x] == c.sys.nodes[x]
  {
    hide R.Reachable, R.MayTake, R.TookAll, Trails, Role, Tracks;
    var q, a, t := Role(cfg, 0), VoteA(cfg), FirstTime(cfg);
    PartsAreOrdered(a, h, count);
    forall x | x in xs ensures R.MayTake(c.sys.nodes[x], a, Whole(a)[..count]) {
      assert Held(cfg, c, x, h);
      TrailsVote(c.sys.nodes[x], a, Whole(a)[..h], t + cfg.leaderLease);
      TrailsTakes(c.sys.nodes[x], a, a, Whole(a)[..h], t + cfg.leaderLease, Whole(a)[..count]);
    }
    c' := AppendAll(cfg, c, q, a, Whole(a), xs, count);
    forall x | x in xs ensures Held(cfg, c', x, count) && Told(c', q, a, Whole(a), x, count - 1) {
      assert Held(cfg, c, x, h);
      TookTrails(cfg, c.sys.nodes[x], a, Whole(a)[..h], t + cfg.leaderLease, Whole(a)[..count], t);
      assert Reporting(c', x, a, Whole(a)[..count], t);
    }
  }

  ghost predicate FirstTold(cfg: Config, c: Tracked, x: NodeId, i: nat)
    requires Large(cfg) && i < 5
  {
    Told(c, Role(cfg, 0), VoteA(cfg), Whole(VoteA(cfg)), x, i)
  }

  /** How many entries each follower has, and which reports were sent. */
  ghost predicate Shared(cfg: Config, c: Tracked, m: map<NodeId, nat>, told: set<(NodeId, nat)>)
    requires Large(cfg)
  {
    && FirstLeads(cfg, c, None) && Role(cfg, 0) in c.tracks && c.tracks[Role(cfg, 0)] == NewTrack(cfg)
    && m.Keys == cfg.members - {Role(cfg, 0)}
    && (forall x :: x in m ==> Held(cfg, c, x, m[x]))
    && forall e :: e in told ==> e.1 < 5 && FirstTold(cfg, c, e.0, e.1)
  }

  function Telling(xs: seq<NodeId>, i: nat): set<(NodeId, nat)> {
    set x | x in xs :: (x, i)
  }

  function Given(m: map<NodeId, nat>, xs: seq<NodeId>, count: nat): map<NodeId, nat> {
    map x | x in m :: if x in xs then count else m[x]
  }

  lemma ShareOut(cfg: Config, c: Tracked, m: map<NodeId, nat>, told: set<(NodeId, nat)>, xs: seq<NodeId>, h: nat,
                 count: nat)
    returns (c': Tracked)
    requires Large(cfg) && Shared(cfg, c, m, told) && NoDuplicates(xs) && h <= count && 2 <= count <= 5
    requires forall x :: x in xs ==> x in m && m[x] == h
    ensures Shared(cfg, c', Given(m, xs, count), told + Telling(xs, count - 1))
  {
    hide FirstLeads, NewTrack, Role, Told, Trails;
    var q, a := Role(cfg, 0), VoteA(cfg);
    assert forall x :: x in xs ==> x in m && Held(cfg, c, x, m[x]);
    c' := Replicated(cfg, c, xs, h, count);
    forall e | e in told ensures FirstTold(cfg, c', e.0, e.1) {
      assert FirstTold(cfg, c, e.0, e.1);
      StillTold(c, c', q, a, Whole(a), e.0, e.1);
    }
    forall x | x in m ensures Held(cfg, c', x, Given(m, xs, count)[x]) {
      assert Held(cfg, c, x, m[x]);
    }
  }

  lemma GivenIs(m: map<NodeId, nat>, xs: seq<NodeId>, count: nat)
    ensures Given(m, xs, count).Keys == m.Keys
    ensures forall x :: x in m && x !in xs ==> Given(m, xs, count)[x] == m[x]
  {
  }

  lemma OneShare(m: map<NodeId, nat>, x: NodeId, count: nat)
    requires x in m && count > 0
    ensures Given(m, [x], count) == m[x := count] && Telling([x], count - 1) == {(x, count - 1)}
  {
  }

  /** The second leader to be was initialized, too. */
  ghost function StartShares(cfg: Config): map<NodeId, nat>
    requires Large(cfg)
  {
    map x | x in cfg.members - {Role(cfg, 0)} :: if x == Role(cfg, 1) then 1 else 0
  }

  lemma NothingShared(cfg: Config) returns (c: Tracked)
    requires Large(cfg)
    ensures Shared(cfg, c, StartShares(cfg), {})
  {
    hide FirstLeads, Held, NewTrack, Role;
    c := Written(cfg);
    assert c.sys.nodes.Keys == cfg.members && Role(cfg, 0) in c.tracks by {
      TracksLeader(cfg, c, None);
    }
  }

  lemma TracksLeader(cfg: Config, c: Tracked, committed: Option<LogId>)
    requires Large(cfg) && FirstLeads(cfg, c, committed)
    ensures c.sys.nodes.Keys == cfg.members && Role(cfg, 0) in c.tracks
  {
  }

  /** The reports the first leader will count. */
  ghost function Reports(cfg: Config): set<(NodeId, nat)>
    requires Large(cfg)
  {
    {(Role(cfg, 1), 3), (Role(cfg, 2), 1), (Role(cfg, 2), 2), (Role(cfg, 3), 1)} + Telling(Ahead(cfg), 4)
  }

  /** Those ahead have everything, and the four in the middle their shares. */
  lemma AllShared(cfg: Config) returns (c: Tracked, m: map<NodeId, nat>)
    requires Large(cfg)
    ensures Shared(cfg, c, m, Reports(cfg)) && Role(cfg, 1) in m && m[Role(cfg, 1)] == 4
    ensures forall x :: x in Later(cfg) ==> x in m && m[x] <= 3
  {
    hide Shared, Role, SortedIds, Later, Ahead, Telling, Given;
    RolesAre(cfg);
    AreVoters(cfg);
    LaterAre(cfg);
    AheadAre(cfg);
    var x1, x2, x3, ahead := Role(cfg, 1), Role(cfg, 2), Role(cfg, 3), Ahead(cfg);
    var m0: map<NodeId, nat> := StartShares(cfg);
    var c0 := NothingShared(cfg);
    OneShare(m0, x2, 2);
    var c1 := ShareOut(cfg, c0, m0, {}, [x2], 0, 2);
    OneShare(m0[x2 := 2], x2, 3);
    var c2 := ShareOut(cfg, c1, m0[x2 := 2], {} + {(x2, 1)}, [x2], 2, 3);
    OneShare(m0[x2 := 2][x2 := 3], x3, 2);
    var c3 := ShareOut(cfg, c2, m0[x2 := 2][x2 := 3], {} + {(x2, 1)} + {(x2, 2)}, [x3], 0, 2);
    var m3, t3 := m0[x2 := 2][x2 := 3][x3 := 2], {} + {(x2, 1)} + {(x2, 2)} + {(x3, 1)};
    OneShare(m3, x1, 4);
    var c4 := ShareOut(cfg, c3, m3, t3, [x1], 1, 4);
    var m4: map<NodeId, nat> := m3[x1 := 4];
    c := ShareOut(cfg, c4, m4, t3 + {(x1, 3)}, ahead, 0, 5);
    m := Given(m4, ahead, 5);
    GivenIs(m4, ahead, 5);
    assert t3 + {(x1, 3)} + Telling(ahead, 4) == Reports(cfg);
  }

  // ----- The first commit ---------------------------------------------------------

  /** The reports told to the first leader stay told. */
  ghost predicate AllTold(cfg: Config, c: Tracked)
    requires Large(cfg)
  {
    forall e :: e in Reports(cfg) ==> e.1 < 5 && FirstTold(cfg, c, e.0, e.1)
  }

  lemma StillAllTold(cfg: Config, c: Tracked, c': Tracked)
    requires Large(cfg) && AllTold(cfg, c) && R.Continues(c, c')
    ensures AllTold(cfg, c')
  {
    hide Reports, Told, Role;
    forall e | e in Reports(cfg) ensures e.1 < 5 && FirstTold(cfg, c', e.0, e.1) {
      assert FirstTold(cfg, c, e.0, e.1);
      StillTold(c, c', Role(cfg, 0), VoteA(cfg), Whole(VoteA(cfg)), e.0, e.1);
    }
  }

  /** The first leader has committed `committed`, after some more reports; nothing else has changed since `c`. */
  ghost predicate Counting(cfg: Config, c: Tracked, c': Tracked, committed: Option<LogId>)
    requires Large(cfg)
  {
    FirstLeads(cfg, c', committed) && AllTold(cfg, c') && OnlyLeader(c, c', Role(cfg, 0))
  }

  /** One report to the first leader, whose progress will accept `g`. */
  lemma CountFirst(cfg: Config, c0: Tracked, c: Tracked, committed: Option<LogId>, x: NodeId,
                   i: nat) returns (c': Tracked)
    requires Large(cfg) && Counting(cfg, c0, c, committed) && Role(cfg, 0) in c.tracks
    requires 0 < i < 5 && FirstTold(cfg, c, x, i)
    requires var w := Value(c.tracks[Role(cfg, 0)].log, x); w.Some? && !OptLe(Id(VoteA(cfg), i), w.value)
    requires var g := Update(IdOrder(), c.tracks[Role(cfg, 0)].log, x, Id(VoteA(cfg), i)).accepted;
             OptLe(committed, g) && (g.Some? ==> g.value.leader == VoteA(cfg))
    ensures var p := Update(IdOrder(), c.tracks[Role(cfg, 0)].log, x, Id(VoteA(cfg), i));
            Counting(cfg, c0, c', p.accepted) && Role(cfg, 0) in c'.tracks && c'.tracks[Role(cfg, 0)].log == p
  {
    hide Leads, Told, Role, Update, Value, AllTold;
    var p := Update(IdOrder(), c.tracks[Role(cfg, 0)].log, x, Id(VoteA(cfg), i));
    c' := CountReport(cfg, c, Role(cfg, 0), VoteA(cfg), Whole(VoteA(cfg)), committed, x, i);
    TracksLeader(cfg, c', p.accepted);
    StillAllTold(cfg, c, c');
  }

  /** The first `j` voters have reported everything. */
  ghost predicate Filling(cfg: Config, c0: Tracked, c: Tracked, j: nat)
    requires Large(cfg)
  {
    && Counting(cfg, c0, c, None) && Role(cfg, 0) in c.tracks
    && Filled(c.tracks[Role(cfg, 0)].log, InOrder(cfg), j, Id(VoteA(cfg), 4), None)
    && c.tracks[Role(cfg, 0)].log.voterCount == |Voters(cfg)|
  }

  lemma FilledValue(p: LogProgress, all: seq<NodeId>, j: nat, z: Option<LogId>, i: nat)
    requires Filled(p, all, j, z, None) && j <= i < |all|
    ensures Value(p, all[i]) == Some(None)
  {
    F.ValueAt(p, i);
  }

  lemma {:induction false} AheadReport(cfg: Config, c0: Tracked, c: Tracked, j: nat) returns (c': Tracked)
    requires Large(cfg) && j <= Front(cfg) && Filling(cfg, c0, c, 0)
    ensures Filling(cfg, c0, c', j)
    decreases j
  {
    hide Counting, Filled, Update, Value, Role, SortedIds, Learners;
    if j == 0 {
      c' := c;
    } else {
      var c1 := AheadReport(cfg, c0, c, j - 1);
      var x, z, p := Voters(cfg)[j - 1], Id(VoteA(cfg), 4), c1.tracks[Role(cfg, 0)].log;
      IdOrderIsTotal();
      assert InOrder(cfg)[j - 1] == x;
      FilledValue(p, InOrder(cfg), j - 1, z, j - 1);
      FillOne(IdOrder(), p, InOrder(cfg), j - 1, z, None);
      NoneAccepted(Update(IdOrder(), p, x, z), InOrder(cfg), j, z);
      AheadTold(cfg, c0, c1, j - 1);
      c' := CountFirst(cfg, c0, c1, None, x, 4);
    }
  }

  lemma NoneAccepted(p: LogProgress, all: seq<NodeId>, j: nat, z: Option<LogId>)
    requires Filled(p, all, j, z, None)
    ensures p.accepted == None
  {
  }

  lemma AheadTold(cfg: Config, c0: Tracked, c: Tracked, j: nat)
    requires Large(cfg) && Counting(cfg, c0, c, None) && j < Front(cfg)
    ensures FirstTold(cfg, c, Voters(cfg)[j], 4)
  {
    hide Told, FirstLeads, SortedIds, Role;
    assert Ahead(cfg)[j] == Voters(cfg)[j];
    assert (Voters(cfg)[j], 4) in Reports(cfg);
  }

  /** The four in the middle are at `mid`, and those before them at the last entry. */
  ghost predicate Stage(cfg: Config, c0: Tracked, c: Tracked, f: Entries, mid: Entries, r: Entries, acc: Option<LogId>)
    requires Large(cfg)
  {
    && Counting(cfg, c0, c, acc) && Role(cfg, 0) in c.tracks
    && Middle(c.tracks[Role(cfg, 0)].log, f, mid, r) && c.tracks[Role(cfg, 0)].log.accepted == acc
    && forall i :: 0 <= i < |f| ==> f[i].val == Id(VoteA(cfg), 4)
  }

  lemma MiddleValue(p: LogProgress, f: Entries, mid: Entries, r: Entries, k: nat)
    requires Middle(p, f, mid, r) && k < 4
    ensures Value(p, mid[k].id) == Some(mid[k].val)
  {
    F.ValueAt(p, |f| + k);
    assert p.entries[|f| + k] == mid[k];
  }

  /** A report that moves one of the four up, after which `n` of them are above the accepted value. */
  lemma Rise(cfg: Config, c0: Tracked, c: Tracked, f: Entries, mid: Entries, r: Entries, acc: Option<LogId>,
             k: nat, to: nat, i: nat, n: nat, b: Entries) returns (c': Tracked)
    requires Large(cfg) && Stage(cfg, c0, c, f, mid, r, acc) && to <= k < |mid| == 4 && to <= 2 && to < n <= 3
             && 0 < i < 5
    requires FirstTold(cfg, c, mid[k].id, i)
    requires var x := Id(VoteA(cfg), i);
             && OptLe(mid[k].val, acc) && !OptLe(x, acc)
             && (forall j :: to <= j < k ==> !OptLe(x, mid[j].val)) && (to > 0 ==> OptLe(x, mid[to - 1].val))
             && b == Moved(mid[k := IdVal(mid[k].id, x)], to, k)
    requires (forall j :: 0 <= j < n ==> !OptLe(b[j].val, acc)) && OptLe(b[n].val, acc)
    requires n == 3 ==> b[2].val.Some? && b[2].val.value.leader == VoteA(cfg)
    requires acc.Some? ==> acc.value.leader == VoteA(cfg)
    ensures Stage(cfg, c0, c', f, b, r, if n == 3 then b[2].val else acc)
  {
    hide Counting, Middle, Update, Value, Role, Moved;
    var p, x := c.tracks[Role(cfg, 0)].log, Id(VoteA(cfg), i);
    IdOrderIsTotal();
    MiddleValue(p, f, mid, r, k);
    LowerIds(VoteA(cfg), i);
    MiddleRaised(IdOrder(), p, f, mid, r, k, to, x, n);
    c' := CountFirst(cfg, c0, c, acc, mid[k].id, i);
  }

  lemma LowerIds(u: LeaderId, i: nat)
    requires i < 5
    ensures OptLe(Id(u, i), Id(u, 4))
  {
  }

  /** A report of one of the four that is above the accepted value already: it stays where it is. */
  lemma Skip(cfg: Config, c0: Tracked, c: Tracked, f: Entries, mid: Entries, r: Entries, acc: Option<LogId>, k: nat,
             i: nat)
    returns (c': Tracked)
    requires Large(cfg) && Stage(cfg, c0, c, f, mid, r, acc) && k < |mid| == 4 && 0 < i < 5
    requires FirstTold(cfg, c, mid[k].id, i) && !OptLe(mid[k].val, acc) && !OptLe(Id(VoteA(cfg), i), mid[k].val)
    requires acc.Some? ==> acc.value.leader == VoteA(cfg)
    ensures Stage(cfg, c0, c', f, mid[k := IdVal(mid[k].id, Id(VoteA(cfg), i))], r, acc)
  {
    hide Counting, Middle, Update, Value, Role;
    var p := c.tracks[Role(cfg, 0)].log;
    IdOrderIsTotal();
    MiddleValue(p, f, mid, r, k);
    MiddleSkips(IdOrder(), p, f, mid, r, k, Id(VoteA(cfg), i));
    c' := CountFirst(cfg, c0, c, acc, mid[k].id, i);
  }

  /** The four in the middle, each at one of the leader's entries or, for 0, at none. */
  ghost function At(cfg: Config, i: nat, e: nat): IdVal<Option<LogId>>
    requires Large(cfg) && i < 4
  {
    IdVal(Role(cfg, i), if e == 0 then None else Id(VoteA(cfg), e))
  }

  /** Voters 2 and 0 reach entry 1, and 0 is raised past 2: the first skip. */
  lemma FirstSkip(cfg: Config, c0: Tracked, c: Tracked, f: Entries, r: Entries) returns (c': Tracked)
    requires Large(cfg) && Stage(cfg, c0, c, f, [At(cfg, 0, 0), At(cfg, 1, 0), At(cfg, 2, 0), At(cfg, 3, 0)], r, None)
    ensures Stage(cfg, c0, c', f, [At(cfg, 2, 1), At(cfg, 0, 2), At(cfg, 1, 0), At(cfg, 3, 0)], r, None)
  {
    hide Stage, Role, FirstTold;
    StageTold(cfg, c0, c, f, [At(cfg, 0, 0), At(cfg, 1, 0), At(cfg, 2, 0), At(cfg, 3, 0)], r, None);
    var m1 := [At(cfg, 2, 1), At(cfg, 0, 0), At(cfg, 1, 0), At(cfg, 3, 0)];
    var c1 := Rise(cfg, c0, c, f, [At(cfg, 0, 0), At(cfg, 1, 0), At(cfg, 2, 0), At(cfg, 3, 0)], r, None, 2, 0, 1, 1,
        m1);
    StageTold(cfg, c0, c1, f, m1, r, None);
    var m2 := [At(cfg, 2, 1), At(cfg, 0, 1), At(cfg, 1, 0), At(cfg, 3, 0)];
    var c2 := Rise(cfg, c0, c1, f, m1, r, None, 1, 1, 1, 2, m2);
    StageTold(cfg, c0, c2, f, m2, r, None);
    c' := Skip(cfg, c0, c2, f, m2, r, None, 1, 2);
    assert m2[1 := At(cfg, 0, 2)] == [At(cfg, 2, 1), At(cfg, 0, 2), At(cfg, 1, 0), At(cfg, 3, 0)];
  }

  lemma StageTold(cfg: Config, c0: Tracked, c: Tracked, f: Entries, mid: Entries, r: Entries, acc: Option<LogId>)
    requires Large(cfg) && Stage(cfg, c0, c, f, mid, r, acc)
    ensures forall i :: 0 < i < 5 ==> FirstTold(cfg, c, Role(cfg, 0), i)
    ensures FirstTold(cfg, c, Role(cfg, 1), 3) && FirstTold(cfg, c, Role(cfg, 2), 1)
    ensures FirstTold(cfg, c, Role(cfg, 2), 2) && FirstTold(cfg, c, Role(cfg, 3), 1)
  {
    hide FirstLeads, Role, OnlyLeader, Middle;
    assert (Role(cfg, 1), 3) in Reports(cfg) && (Role(cfg, 2), 1) in Reports(cfg);
    assert (Role(cfg, 2), 2) in Reports(cfg) && (Role(cfg, 3), 1) in Reports(cfg);
  }

  /** Voter 3 makes entry 1 accepted, voter 1 passes all, and 0 is raised to the end of its log: the second skip. Then
      voter 2 makes that end accepted, which none of the other three has. */
  lemma SecondSkip(cfg: Config, c0: Tracked, c: Tracked, f: Entries, r: Entries) returns (c': Tracked)
    requires Large(cfg) && Stage(cfg, c0, c, f, [At(cfg, 2, 1), At(cfg, 0, 2), At(cfg, 1, 0), At(cfg, 3, 0)], r, None)
    ensures Stage(cfg, c0, c', f, [At(cfg, 1, 3), At(cfg, 2, 2), At(cfg, 0, 4), At(cfg, 3, 1)], r, Id(VoteA(cfg), 4))
  {
    hide Stage, Role, FirstTold;
    var one := Id(VoteA(cfg), 1);
    var m3 := [At(cfg, 2, 1), At(cfg, 0, 2), At(cfg, 1, 0), At(cfg, 3, 0)];
    StageTold(cfg, c0, c, f, m3, r, None);
    var m4 := [At(cfg, 2, 1), At(cfg, 0, 2), At(cfg, 3, 1), At(cfg, 1, 0)];
    var c4 := Rise(cfg, c0, c, f, m3, r, None, 3, 2, 1, 3, m4);
    StageTold(cfg, c0, c4, f, m4, r, one);
    var m5 := [At(cfg, 1, 3), At(cfg, 2, 1), At(cfg, 0, 2), At(cfg, 3, 1)];
    var c5 := Rise(cfg, c0, c4, f, m4, r, one, 3, 0, 3, 1, m5);
    StageTold(cfg, c0, c5, f, m5, r, one);
    var m6 := [At(cfg, 1, 3), At(cfg, 2, 1), At(cfg, 0, 4), At(cfg, 3, 1)];
    var c6 := Skip(cfg, c0, c5, f, m5, r, one, 2, 4);
    assert m5[2 := At(cfg, 0, 4)] == m6;
    StageTold(cfg, c0, c6, f, m6, r, one);
    c' := Rise(cfg, c0, c6, f, m6, r, one, 1, 1, 2, 3, [At(cfg, 1, 3), At(cfg, 2, 2), At(cfg, 0, 4), At(cfg, 3, 1)]);
  }

  /** The first leader commits the end of its log. */
  lemma FirstCommit(cfg: Config, c: Tracked, m: map<NodeId, nat>) returns (c': Tracked)
    requires Large(cfg) && Shared(cfg, c, m, Reports(cfg))
    ensures Counting(cfg, c, c', Id(VoteA(cfg), 4))
  {
    hide Filled, Middle, Role, SortedIds, FirstLeads, FirstTold, Learners, NewTrack;
    var n, k, z := |Voters(cfg)|, Front(cfg), Id(VoteA(cfg), 4);
    NewFilled(cfg);
    var c1 := AheadReport(cfg, c, c, k);
    var p := c1.tracks[Role(cfg, 0)].log;
    FilledMiddle(p, InOrder(cfg), z, None);
    MiddleStage(cfg, c, c1);
    var c2 := FirstSkip(cfg, c, c1, p.entries[..k], p.entries[k + 4..]);
    c' := SecondSkip(cfg, c, c2, p.entries[..k], p.entries[k + 4..]);
  }

  lemma NewFilled(cfg: Config)
    requires Large(cfg)
    ensures var p := NewTrack(cfg).log;
            Filled(p, InOrder(cfg), 0, Id(VoteA(cfg), 4), None) && p.voterCount == |Voters(cfg)|
  {
    hide Role, Learners, New, SortedIds, Filled;
    IdOrderIsTotal();
    UnionIsMembers(cfg);
    assert cfg.joint == [cfg.joint[0]];
    NewIsFilled(IdOrder(), cfg.joint[0], Learners(cfg), Id(VoteA(cfg), 4), None);
  }

  lemma MiddleStage(cfg: Config, c0: Tracked, c: Tracked)
    requires Large(cfg) && Filling(cfg, c0, c, Front(cfg))
    ensures var k, p := Front(cfg), c.tracks[Role(cfg, 0)].log;
            && k + 4 <= |p.entries|
            && Stage(cfg, c0, c, p.entries[..k], [At(cfg, 0, 0), At(cfg, 1, 0), At(cfg, 2, 0), At(cfg, 3, 0)],
                     p.entries[k + 4..], None)
  {
    hide Counting, Middle, SortedIds, F.OneMajority;
    var k, p := Front(cfg), c.tracks[Role(cfg, 0)].log;
    FilledMiddle(p, InOrder(cfg), Id(VoteA(cfg), 4), None);
    assert p.entries[k..k + 4] == [At(cfg, 0, 0), At(cfg, 1, 0), At(cfg, 2, 0), At(cfg, 3, 0)];
  }

  // ----- The second commit --------------------------------------------------------

  /** The first leader has committed the end of its log. */
  ghost predicate FirstCommitted(cfg: Config, c: Tracked)
    requires Large(cfg)
  {
    && Role(cfg, 0) in c.sys.nodes
    && c.sys.nodes[Role(cfg, 0)].log == Whole(VoteA(cfg)) && c.sys.nodes[Role(cfg, 0)].committed == Id(VoteA(cfg), 4)
  }

  /** The first leader has committed, and long after that the second one can be elected without that entry. */
  lemma LeasesRunOut(cfg: Config) returns (c: Tracked)
    requires Large(cfg)
    ensures FirstCommitted(cfg, c) && Ready(cfg, c, Whole(VoteA(cfg))[..4], FirstTime(cfg) + cfg.leaderLease)
  {
    hide Role, Later, R.Reachable, AllTold, NewTrack, FirstTold, Tracks, Reports, Held, Ready;
    var c0, m := AllShared(cfg);
    var c1 := FirstCommit(cfg, c0, m);
    c := R.Wait(cfg, c1, cfg.leaderLease + cfg.electionTimeout + 1);
    HeldReady(cfg, c0, m, c);
  }

  lemma HeldReady(cfg: Config, c: Tracked, m: map<NodeId, nat>, c': Tracked)
    requires Large(cfg) && R.Reachable(cfg, c') && c'.sys.nodes.Keys == cfg.members
    requires c'.sys.now == FirstTime(cfg) + cfg.leaderLease + cfg.electionTimeout + 1
    requires forall x :: x in m ==> x != Role(cfg, 0) && Held(cfg, c, x, m[x]) && x in c'.sys.nodes
    requires forall x :: x in m && x in c.sys.nodes ==> c'.sys.nodes[x] == c.sys.nodes[x]
    requires Role(cfg, 1) in m && m[Role(cfg, 1)] == 4 && forall x :: x in Later(cfg) ==> x in m && m[x] <= 3
    ensures Ready(cfg, c', Whole(VoteA(cfg))[..4], FirstTime(cfg) + cfg.leaderLease)
  {
    hide Role, Later, R.Reachable, Trails, NotAhead;
    assert Held(cfg, c, Role(cfg, 1), 4);
    forall x | x in Later(cfg) ensures x in cfg.members && NotAhead(c'.sys.nodes[x], VoteA(cfg), Whole(VoteA(cfg))[..4],
                                                                   FirstTime(cfg) + cfg.leaderLease) {
      assert Held(cfg, c, x, m[x]);
      HeldIsBehind(cfg, c, x, m[x]);
    }
  }

  lemma HeldIsBehind(cfg: Config, c: Tracked, x: NodeId, h: nat)
    requires Large(cfg) && h <= 3 && Held(cfg, c, x, h)
    ensures NotAhead(c.sys.nodes[x], VoteA(cfg), Whole(VoteA(cfg))[..4], FirstTime(cfg) + cfg.leaderLease)
  {
    PartsAreOrdered(VoteA(cfg), h, 4);
  }

  // ----- When commits agree -------------------------------------------------------

  /** Two nodes have committed different entries at one index, at one time or at two. */
  ghost predicate Differ(run: seq<Tracked>, i: nat, j: nat, p: NodeId, q: NodeId, k: nat) {
    && i < |run| && j < |run| && p in run[i].sys.nodes && q in run[j].sys.nodes
    && var n, n' := run[i].sys.nodes[p], run[j].sys.nodes[q];
       && k < NextIndex(n.committed) && k < NextIndex(n'.committed)
       && (k >= |n.log| || k >= |n'.log| || n.log[k] != n'.log[k])
  }

  /** In no run do two nodes commit different entries at one index. */
  ghost predicate CommitsAgree(cfg: Config) {
    forall run, i, j, p, q, k :: IsTrackedRun(cfg, run) ==> !Differ(run, i, j, p, q, k)
  }

  /** With one majority config, commits agree in every run of the code if and only if there are at most three voters. */
  lemma AgreeExactly(cfg: Config)
    requires cfg.Valid() && |cfg.joint| == 1
    ensures CommitsAgree(cfg) <==> |cfg.joint[0]| <= 3
  {
    hide IsTrackedRun, R.Reachable, SortedIds, Role, Ready, Tracks;
    if |cfg.joint[0]| <= 3 {
      forall run, i, j, p, q, k | IsTrackedRun(cfg, run) ensures !Differ(run, i, j, p, q, k) {
        if Differ(run, i, j, p, q, k) {
          if i <= j {
            StateMachineSafety(cfg, run, i, j, p, q, k);
          } else {
            StateMachineSafety(cfg, run, j, i, q, p, k);
          }
        }
      }
    } else {
      RolesAre(cfg);
      AreVoters(cfg);
      var c0 := LeasesRunOut(cfg);
      var c := SecondCommit(cfg, c0, Whole(VoteA(cfg))[..4], FirstTime(cfg) + cfg.leaderLease);
      var run := R.RunTo(cfg, c);
      assert Differ(run, |run| - 1, |run| - 1, Role(cfg, 0), Role(cfg, 1), 4);
    }
  }
}
