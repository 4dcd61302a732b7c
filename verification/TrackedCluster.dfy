/** The cluster as the code runs it: each leader keeps its progress and its clock in the incremental form,
    and commits whatever that form returns.

    `Cluster` is the same protocol with a commit step that is handed the right value. Every run in which no
    update of a leader's progress skips is a run of `Cluster`. */
module TrackedCluster {
  import opened Ids
  import opened Quorum
  import opened ProgressSpec
  import opened ProgressRuns
  import opened ProgressFaults
  import opened EngineSpec
  import B = Ballots
  import opened Cluster
  import opened ClusterVotes
  import opened ClusterLog
  import opened ClusterProgress
  import opened ClusterSafety
  import opened Elections
  import opened ClusterLeaseSteps
  import opened ClusterReads
  import opened ClusterReadSteps
  import opened LeaderProgress

  type LogProgress = p: Progress<Option<LogId>> | p.voterCount <= |p.entries| witness Progress([], [], 0, None)
  type ClockProgress = p: Progress<Option<nat>> | p.voterCount <= |p.entries| witness Progress([], [], 0, None)

  /** What a leader keeps besides the protocol: `progress` and `clock_progress`. `clockSkipped` records for the
      proofs whether an update of the clock has skipped. */
  datatype Track = Track(log: LogProgress, clock: ClockProgress, clockSkipped: bool)

  /** `tracks` holds the tracks of present and past leaders. `skipped` records for the proofs whether an update of
      any leader's progress has skipped. */
  datatype Tracked = Tracked(sys: Sys, tracks: map<NodeId, Track>, skipped: bool)

  // ----- Steps --------------------------------------------------------------------

  /** A step of the protocol, or a look at the time a quorum has acknowledged. */
  datatype Move = Protocol(st: Step) | AckedTime(q: NodeId)

  ghost function Learners(cfg: Config): seq<NodeId> {
    SortedIds(cfg.members - Union(cfg.joint))
  }

  ghost function NewTrack(cfg: Config): Track {
    Track(New(cfg.joint, Learners(cfg), None), New(cfg.joint, Learners(cfg), None), false)
  }

  /** The report a step records in the progress of the leader on its node. */
  function Report(s: Sys, st: Step): Option<(NodeId, Option<LogId>)> {
    match st
    case RecvProgress(q, m, _) =>
      if q in s.nodes && m.AppendResp? && TakesReport(s.nodes[q], m.leader, m.from, m.matching)
      then Some((m.from, m.matching))
      else None
    case Flush(q, upto, _) =>
      if q in s.nodes && s.nodes[q].leader.Some? && TakesReport(s.nodes[q], s.nodes[q].leader.value.id, q, Some(upto))
      then Some((q, Some(upto)))
      else None
    case _ => None
  }

  /** The sending time a heartbeat reply reports to the leader on its node. */
  function Heard(cfg: Config, s: Sys, st: Step): Option<(NodeId, nat)> {
    match st
    case RecvHeartbeat(q, m) =>
      if q in s.nodes && m.AppendResp? then
        var n := AfterReply(cfg, q, s.nodes[q], m, s.now);
        if n.leader.Some? && n.leader.value.id == m.leader then Some((m.from, m.sentAt)) else None
      else None
    case _ => None
  }

  ghost function HearsAt(t: Track, id: NodeId, time: nat): Track {
    t.(clock := Increased(t.clock, id, time), clockSkipped := t.clockSkipped || IncreaseSkips(t.clock, id, time))
  }

  ghost function Recorded(t: Track, report: Option<(NodeId, Option<LogId>)>): Track {
    if report.None? then t else t.(log := Update(IdOrder(), t.log, report.value.0, report.value.1))
  }

  ghost function TrackAfter(cfg: Config, s: Sys, t: Track, st: Step): Track {
    var t1 := Recorded(t, Report(s, st));
    var h := Heard(cfg, s, st);
    if h.None? then t1 else HearsAt(t1, h.value.0, h.value.1)
  }

  ghost predicate ReportSkips(c: Tracked, st: Step) {
    var r := Report(c.sys, st);
    r.Some? && st.q in c.tracks && Skips(IdOrder(), c.tracks[st.q].log, r.value.0, r.value.1)
  }

  /** The step commits what `update_with` returned. */
  ghost predicate CommitsReturned(c: Tracked, st: Step) {
    var r := Report(c.sys, st);
    r.Some? && st.q in c.tracks ==> st.granted == Update(IdOrder(), c.tracks[st.q].log, r.value.0, r.value.1).accepted
  }

  ghost predicate Can(cfg: Config, c: Tracked, mv: Move) {
    match mv
    case Protocol(st) => Possible(cfg, c.sys, st) && CommitsReturned(c, st)
    case AckedTime(q) => q in c.sys.nodes && c.sys.nodes[q].leader.Some? && q in c.tracks
  }

  predicate LeadsAnew(n: Option<Leading>, n': Option<Leading>) {
    n'.Some? && (n.None? || n.value.id != n'.value.id)
  }

  function LeaderOn(s: Sys, q: NodeId): Option<Leading> {
    if q in s.nodes then s.nodes[q].leader else None
  }

  ghost function TracksAfter(cfg: Config, c: Tracked, st: Step, s': Sys): map<NodeId, Track> {
    if st.Advance? || LeaderOn(s', st.q).None? then c.tracks
    else if LeadsAnew(LeaderOn(c.sys, st.q), LeaderOn(s', st.q)) || st.q !in c.tracks then c.tracks[st.q := NewTrack(cfg)]
    else c.tracks[st.q := TrackAfter(cfg, c.sys, c.tracks[st.q], st)]
  }

  ghost function Make(cfg: Config, c: Tracked, mv: Move): Tracked
    requires Can(cfg, c, mv)
  {
    match mv
    case Protocol(st) =>
      var s' := Apply(cfg, c.sys, st);
      Tracked(s', TracksAfter(cfg, c, st, s'), c.skipped || ReportSkips(c, st))
    case AckedTime(q) => c.(tracks := c.tracks[q := HearsAt(c.tracks[q], q, c.sys.now)])
  }

  ghost predicate Moves(cfg: Config, c: Tracked, c': Tracked) {
    exists mv :: Can(cfg, c, mv) && c' == Make(cfg, c, mv)
  }

  ghost predicate IsTrackedRun(cfg: Config, run: seq<Tracked>) {
    && cfg.Valid()
    && |run| > 0
    && Init(cfg, run[0].sys) && run[0].tracks == map[] && !run[0].skipped
    && forall i :: 0 <= i < |run| - 1 ==> Moves(cfg, run[i], run[i + 1])
  }

  // ----- What the tracks hold -----------------------------------------------------

  /** The progress agrees with what its leader was told, and is exact. */
  ghost predicate LogOkOf(cfg: Config, l: Leading, p: LogProgress) {
    Tracks(cfg, p, l.progress) && Exact(IdOrder(), p, None) && Ordered(IdOrder(), p)
  }

  ghost predicate ClockOkOf(cfg: Config, q: NodeId, now: nat, l: Leading, t: Track) {
    && TracksClock(cfg, q, now, t.clock, l.clock)
    && (!t.clockSkipped ==> Exact(TimeOrder(), t.clock, None) && Ordered(TimeOrder(), t.clock))
  }

  ghost predicate TrackOk(cfg: Config, c: Tracked, q: NodeId) {
    LeaderOn(c.sys, q).Some? ==> q in c.tracks && LogOkOf(cfg, LeaderOn(c.sys, q).value, c.tracks[q].log)
  }

  ghost predicate ClockOk(cfg: Config, c: Tracked, q: NodeId) {
    LeaderOn(c.sys, q).Some? ==>
      q in c.tracks && ClockOkOf(cfg, q, c.sys.now, LeaderOn(c.sys, q).value, c.tracks[q])
  }

  ghost predicate TracksInv(cfg: Config, c: Tracked) {
    forall q :: q in c.sys.nodes ==> TrackOk(cfg, c, q)
  }

  ghost predicate ClocksInv(cfg: Config, c: Tracked) {
    forall q :: q in c.sys.nodes ==> ClockOk(cfg, c, q)
  }

  // ----- What a step does to a leader ---------------------------------------------

  ghost predicate StartsEmpty(cfg: Config, l: Leading) {
    && l.progress == (map q | q in cfg.members :: None)
    && l.clock == (map q | q in cfg.members :: None)
  }

  function ProgressAfter(l: Leading, report: Option<(NodeId, Option<LogId>)>): map<NodeId, Option<LogId>> {
    if report.None? then l.progress else l.progress[report.value.0 := report.value.1]
  }

  function ClockAfter(l: Leading, heard: Option<(NodeId, nat)>): map<NodeId, Option<nat>> {
    if heard.Some? && heard.value.0 in l.clock && !TimeLe(Some(heard.value.1), l.clock[heard.value.0])
    then l.clock[heard.value.0 := Some(heard.value.1)]
    else l.clock
  }

  /** A leader after a step is a new one, or the one before with what it was told. */
  ghost predicate Carries(cfg: Config, s: Sys, st: Step, l: Option<Leading>, l': Option<Leading>) {
    l'.Some? ==>
      if l.None? then StartsEmpty(cfg, l'.value)
      else
        && l'.value.id == l.value.id
        && l'.value.progress == ProgressAfter(l.value, Report(s, st))
        && l'.value.clock == ClockAfter(l.value, Heard(cfg, s, st))
  }

  lemma TickCarries(cfg: Config, s: Sys, q: NodeId)
    requires ElectionInv(cfg, s) && Possible(cfg, s, Tick(q))
    ensures Carries(cfg, s, Tick(q), LeaderOn(s, q), LeaderOn(TickStep(cfg, s, q), q))
  {
    hide ElectionInv, BallotsOk, TickElects;
    VoterOf(cfg, s, q);
    if TickElects(cfg, q, s.nodes[q], s.now) {
      ElectResult(cfg, q, s.nodes[q], s.now);
      LeaderDoesNotStand(cfg, q, s.nodes[q], s.now);
    }
  }

  lemma VoteReqCarries(cfg: Config, s: Sys, q: NodeId, m: Msg)
    requires ElectionInv(cfg, s) && Possible(cfg, s, RecvVoteReq(q, m))
    ensures Carries(cfg, s, RecvVoteReq(q, m), LeaderOn(s, q), LeaderOn(VoteReqStep(cfg, s, q, m), q))
  {
    hide ElectionInv, BallotsOk, UpdateVote;
    VoterOf(cfg, s, q);
    if GrantsVote(cfg, q, s.nodes[q], Vote(m.vote, false), m.last, s.now) {
      FollowsOther(cfg, q, s.nodes[q], Vote(m.vote, false), s.now);
    }
  }

  lemma VoteRespCarries(cfg: Config, s: Sys, q: NodeId, m: Msg)
    requires ElectionInv(cfg, s) && Possible(cfg, s, RecvVoteResp(q, m))
    ensures Carries(cfg, s, RecvVoteResp(q, m), LeaderOn(s, q), LeaderOn(VoteRespStep(cfg, s, q, m), q))
  {
    hide ElectionInv, BallotsOk, Establish, UpdateVote, Won, B.Raise;
    var n := s.nodes[q];
    VoterOf(cfg, s, q);
    if n.candidate.Some? && n.candidate.value.vote == Vote(m.candidate, false) {
      var c := n.candidate.value;
      if m.reply.granted && m.reply.vote == c.vote {
        EstablishVotes(cfg, q, n.(candidate := Some(c.(granters := c.granters + {m.from}))), s.now);
      } else {
        NeverLeads(cfg, q, n, Vote(m.reply.vote.leader, false), s.now);
        NeverLeads(cfg, q, n.(seenGreater := true), Vote(m.reply.vote.leader, false), s.now);
      }
    }
  }

  lemma AppendCarries(cfg: Config, s: Sys, q: NodeId, m: Msg)
    requires ElectionInv(cfg, s) && Possible(cfg, s, RecvAppend(q, m))
    ensures Carries(cfg, s, RecvAppend(q, m), LeaderOn(s, q), LeaderOn(AppendStep(cfg, s, q, m), q))
  {
    hide ElectionInv, BallotsOk, AppendEntries, UpdateCommitted, Followed;
    VoterOf(cfg, s, q);
    AppendEntriesLeads(cfg, q, s.nodes[q], m.leader, m.prev, m.entries, s.now);
    var n := AppendEntries(cfg, q, s.nodes[q], m.leader, m.prev, m.entries, s.now).0;
    UpdateCommittedMoves(n, Announced(m.leader, m.commit));
  }

  lemma HeartbeatCarries(cfg: Config, s: Sys, q: NodeId, m: Msg)
    requires ElectionInv(cfg, s) && Possible(cfg, s, RecvHeartbeat(q, m))
    ensures Carries(cfg, s, RecvHeartbeat(q, m), LeaderOn(s, q), LeaderOn(HeartbeatStep(cfg, s, q, m), q))
  {
    hide ElectionInv, BallotsOk, UpdateVote, B.Raise;
    var n := s.nodes[q];
    VoterOf(cfg, s, q);
    SentOf(cfg, s, m);
    if m.outcome.HigherVote? && n.leader.Some? && n.leader.value.id == m.leader {
      HigherIsNotOwn(s.hist, cfg.joint, q, m.outcome.vote);
      FollowsOther(cfg, q, n, m.outcome.vote, s.now);
    }
  }

  lemma ReportCarries(cfg: Config, s: Sys, st: Step)
    requires ElectionInv(cfg, s) && Possible(cfg, s, st) && (st.RecvProgress? || st.Flush? || st.Write? || st.Send?)
    ensures Carries(cfg, s, st, LeaderOn(s, st.q), LeaderOn(Apply(cfg, s, st), st.q))
  {
    hide ElectionInv, BallotsOk, TryCommit, IoLt;
    match st {
      case RecvProgress(q, m, granted) => HandledProgress(s.nodes[q], m.leader, m.from, m.matching, granted);
      case Flush(q, upto, granted) => HandledProgress(s.nodes[q], s.nodes[q].leader.value.id, q, Some(upto), granted);
      case _ =>
    }
  }

  lemma HandledProgress(n: Node, id: LeaderId, target: NodeId, matching: Option<LogId>, granted: Option<LogId>)
    ensures HandleProgress(n, id, target, matching, granted).leader ==
              if TakesReport(n, id, target, matching)
              then Some(n.leader.value.(progress := n.leader.value.progress[target := matching]))
              else n.leader
  {
  }

  lemma StepCarries(cfg: Config, s: Sys, st: Step)
    requires ElectionInv(cfg, s) && Possible(cfg, s, st) && !st.Advance?
    ensures Carries(cfg, s, st, LeaderOn(s, st.q), LeaderOn(Apply(cfg, s, st), st.q))
    ensures OnlyNode(s, Apply(cfg, s, st), st.q) && Apply(cfg, s, st).now == s.now
  {
    hide ElectionInv, Carries, HandleVoteReq, HandleVoteResp, HandleAppend, HandleProgress, HandleHeartbeat, TickElection;
    match st {
      case Tick(q) => TickCarries(cfg, s, q);
      case RecvVoteReq(q, m) => VoteReqCarries(cfg, s, q, m);
      case RecvVoteResp(q, m) => VoteRespCarries(cfg, s, q, m);
      case RecvAppend(q, m) => AppendCarries(cfg, s, q, m);
      case RecvHeartbeat(q, m) => HeartbeatCarries(cfg, s, q, m);
      case _ => ReportCarries(cfg, s, st);
    }
  }

  // ----- How the tracks keep up ---------------------------------------------------

  /** A leader was elected by a quorum, so no child config is empty. */
  lemma NoEmptyChild(cfg: Config, s: Sys, q: NodeId)
    requires ElectionInv(cfg, s) && LeaderOn(s, q).Some?
    ensures |cfg.joint| > 0 && forall i :: 0 <= i < |cfg.joint| ==> cfg.joint[i] != {}
  {
    hide ElectionInv, BallotsOk;
    VoterOf(cfg, s, q);
    var u := s.nodes[q].vote.leader;
    ElectedByQuorum(cfg, s, u);
    forall i | 0 <= i < |cfg.joint| ensures cfg.joint[i] != {} {
      assert Majority(cfg.joint[i], s.hist.elect[u].granters);
    }
  }

  lemma UnionIsMembers(cfg: Config)
    requires cfg.Valid()
    ensures Union(cfg.joint) <= cfg.members && Apart(cfg.joint, Learners(cfg))
    ensures Union(cfg.joint) + SetOf(Learners(cfg)) == cfg.members
  {
    SortedIdsAre(cfg.members - Union(cfg.joint));
  }

  lemma NewTrackOk(cfg: Config, q: NodeId, now: nat, l: Leading)
    requires cfg.Valid() && StartsEmpty(cfg, l)
    ensures LogOkOf(cfg, l, NewTrack(cfg).log) && ClockOkOf(cfg, q, now, l, NewTrack(cfg))
  {
    hide New, Exact, Ordered, Learners, Union;
    UnionIsMembers(cfg);
    NewTracks(cfg, IdOrder(), None);
    NewTracks(cfg, TimeOrder(), None);
    IdOrderIsTotal();
    TimeOrderIsTotal();
  }

  lemma NewTracks<P(!new)>(cfg: Config, le: Order<P>, d: P)
    requires cfg.Valid()
    ensures TotalOrder(le) ==>
              var p := New(cfg.joint, Learners(cfg), d);
              && Shape(p) && p.quorumSet == cfg.joint && Exact(le, p, d) && Ordered(le, p)
              && (forall id :: Value(p, id) == if id in cfg.members then Some(d) else None)
              && (forall id :: id in Union(cfg.joint) <==> IsVoter(p, id) == Some(true))
  {
    hide New, Exact, Ordered, Learners;
    if TotalOrder(le) {
      UnionIsMembers(cfg);
      var p := New(cfg.joint, Learners(cfg), d);
      NewIsExact(le, cfg.joint, Learners(cfg), d);
      forall id ensures id in Union(cfg.joint) <==> IsVoter(p, id) == Some(true) {
        IdOfVoter(p, id);
      }
    }
  }

  /** A report that does not skip is answered with the right value, and the progress stays exact. */
  lemma ReportOk(cfg: Config, l: Leading, p: LogProgress, target: NodeId, matching: Option<LogId>)
    requires |cfg.joint| > 0 && forall i :: 0 <= i < |cfg.joint| ==> cfg.joint[i] != {}
    requires LogOkOf(cfg, l, p) && target in l.progress && !OptLe(matching, l.progress[target])
    requires !Skips(IdOrder(), p, target, matching)
    ensures var p' := Update(IdOrder(), p, target, matching);
            && LogOkOf(cfg, l.(progress := l.progress[target := matching]), p')
            && QuorumAccepted(cfg, l.progress[target := matching], p'.accepted)
  {
    hide Update, Exact, Ordered, Tracks, QuorumAccepted, Skips;
    IdOrderIsTotal();
    assert OptLe(l.progress[target], matching);
    UpdateIsGranted(cfg, p, l.progress, target, matching);
  }

  lemma HeardOk(cfg: Config, q: NodeId, now: nat, l: Leading, t: Track, id: NodeId, time: nat)
    requires ClockOkOf(cfg, q, now, l, t) && time <= now && id != q
    ensures ClockOkOf(cfg, q, now, l.(clock := ClockAfter(l, Some((id, time)))), HearsAt(t, id, time))
  {
    hide Increased, IncreaseSkips, TracksClock, Exact, Ordered;
    IncreaseTracks(cfg, q, now, t.clock, l.clock, id, time);
    assert Shape(t.clock) by { ClockShape(cfg, q, now, t.clock, l.clock); }
    if !t.clockSkipped {
      IncreaseKeeps(t.clock, id, time);
    }
  }

  lemma ClockShape(cfg: Config, q: NodeId, now: nat, p: Progress<Option<nat>>, clock: map<NodeId, Option<nat>>)
    requires TracksClock(cfg, q, now, p, clock)
    ensures Shape(p)
  {
  }

  lemma HeardIsOther(cfg: Config, s: Sys, st: Step)
    requires ElectionInv(cfg, s) && Possible(cfg, s, st) && Heard(cfg, s, st).Some?
    ensures st.RecvHeartbeat? && Heard(cfg, s, st).value.0 != st.q && Heard(cfg, s, st).value.1 <= s.now
  {
    hide ElectionInv, HandleHigherVote;
    SentOf(cfg, s, st.m);
  }

  lemma AdvanceIs(cfg: Config, s: Sys, st: Step)
    requires st.Advance? && Possible(cfg, s, st)
    ensures Apply(cfg, s, st) == s.(now := s.now + st.d)
  {
  }

  // ----- The clocks, in every run -------------------------------------------------

  lemma CarriedClockOk(cfg: Config, c: Tracked, st: Step, l: Leading, l': Leading)
    requires ElectionInv(cfg, c.sys) && !st.Advance? && Possible(cfg, c.sys, st) && st.q in c.tracks
    requires ClockOkOf(cfg, st.q, c.sys.now, l, c.tracks[st.q])
    requires l'.clock == ClockAfter(l, Heard(cfg, c.sys, st))
    ensures ClockOkOf(cfg, st.q, c.sys.now, l', TrackAfter(cfg, c.sys, c.tracks[st.q], st))
  {
    hide ElectionInv, Update, TracksClock, Exact, Ordered, Increased, IncreaseSkips;
    var h := Heard(cfg, c.sys, st);
    if h.Some? {
      HeardIsOther(cfg, c.sys, st);
      HeardOk(cfg, st.q, c.sys.now, l, c.tracks[st.q], h.value.0, h.value.1);
    }
  }

  lemma StepClockOk(cfg: Config, c: Tracked, st: Step)
    requires ElectionInv(cfg, c.sys) && ClocksInv(cfg, c) && Can(cfg, c, Protocol(st)) && !st.Advance?
    ensures ClockOk(cfg, Make(cfg, c, Protocol(st)), st.q)
  {
    hide ElectionInv, Possible, Apply, LogOkOf, ClockOkOf, StartsEmpty, NewTrack, Skips, Update, HearsAt;
    var q, s' := st.q, Apply(cfg, c.sys, st);
    StepCarries(cfg, c.sys, st);
    var l, l' := LeaderOn(c.sys, q), LeaderOn(s', q);
    if l'.Some? {
      if l.None? {
        assert cfg.Valid() by { ValidOf(cfg, c.sys); }
        NewTrackOk(cfg, q, s'.now, l'.value);
      } else {
        assert ClockOk(cfg, c, q);
        CarriedClockOk(cfg, c, st, l.value, l'.value);
      }
    }
  }

  lemma ValidOf(cfg: Config, s: Sys)
    requires ElectionInv(cfg, s)
    ensures cfg.Valid()
  {
  }

  lemma OtherClockOk(cfg: Config, c: Tracked, c': Tracked, p: NodeId)
    requires ClockOk(cfg, c, p) && LeaderOn(c'.sys, p) == LeaderOn(c.sys, p) && c.sys.now <= c'.sys.now
    requires p in c.tracks ==> p in c'.tracks && c'.tracks[p] == c.tracks[p]
    ensures ClockOk(cfg, c', p)
  {
    hide Exact, Ordered;
  }

  lemma StepClocksKeep(cfg: Config, c: Tracked, st: Step)
    requires ElectionInv(cfg, c.sys) && ClocksInv(cfg, c) && Can(cfg, c, Protocol(st))
    ensures ClocksInv(cfg, Make(cfg, c, Protocol(st)))
  {
    hide ElectionInv, Possible, Apply, ClockOk, TrackAfter, NewTrack;
    var c' := Make(cfg, c, Protocol(st));
    if !st.Advance? {
      StepClockOk(cfg, c, st);
      StepCarries(cfg, c.sys, st);
    } else {
      AdvanceIs(cfg, c.sys, st);
    }
    forall p | p in c'.sys.nodes ensures ClockOk(cfg, c', p) {
      if st.Advance? || p != st.q {
        OtherClockOk(cfg, c, c', p);
      }
    }
  }

  lemma LookKeepsClocks(cfg: Config, c: Tracked, q: NodeId)
    requires ClocksInv(cfg, c) && Can(cfg, c, AckedTime(q))
    ensures ClocksInv(cfg, Make(cfg, c, AckedTime(q)))
  {
    hide Increased, IncreaseSkips, TracksClock, Exact, Ordered;
    var c', l, t := Make(cfg, c, AckedTime(q)), LeaderOn(c.sys, q).value, c.tracks[q];
    forall p | p in c'.sys.nodes ensures ClockOk(cfg, c', p) {
      assert ClockOk(cfg, c, p);
      if p == q {
        IncreaseTracks(cfg, q, c.sys.now, t.clock, l.clock, q, c.sys.now);
        ClockShape(cfg, q, c.sys.now, t.clock, l.clock);
        if !t.clockSkipped {
          IncreaseKeeps(t.clock, q, c.sys.now);
        }
      }
    }
  }

  lemma MoveGoes(cfg: Config, c: Tracked, c': Tracked)
    requires Moves(cfg, c, c')
    ensures Goes(cfg, c.sys, c'.sys)
    ensures ElectionInv(cfg, c.sys) && ClocksInv(cfg, c) ==> ClocksInv(cfg, c')
  {
    hide ElectionInv, ClocksInv, Possible, Apply, TracksAfter, ReportSkips, CommitsReturned;
    var mv :| Can(cfg, c, mv) && c' == Make(cfg, c, mv);
    match mv {
      case Protocol(st) =>
        if ElectionInv(cfg, c.sys) && ClocksInv(cfg, c) {
          StepClocksKeep(cfg, c, st);
        }
      case AckedTime(q) =>
        if ClocksInv(cfg, c) {
          LookKeepsClocks(cfg, c, q);
        }
        AnyStutter(cfg, c.sys);
    }
  }

  lemma AnyStutter(cfg: Config, s: Sys)
    ensures Goes(cfg, s, s)
  {
    assert Possible(cfg, s, Advance(0)) && s == Apply(cfg, s, Advance(0));
  }

  function Systems(run: seq<Tracked>): (r: seq<Sys>)
    ensures |r| == |run| && forall i :: 0 <= i < |run| ==> r[i] == run[i].sys
  {
    seq(|run|, i requires 0 <= i < |run| => run[i].sys)
  }

  /** Every run of the code, with skips or without, is a run of the cluster with some commit step. */
  lemma TrackedIsAnyRun(cfg: Config, run: seq<Tracked>)
    requires IsTrackedRun(cfg, run)
    ensures IsAnyRun(cfg, Systems(run))
  {
    hide Moves, Goes, Init, ElectionInv, ClocksInv;
    var ss := Systems(run);
    forall i | 0 <= i < |ss| - 1 ensures Goes(cfg, ss[i], ss[i + 1]) {
      MoveGoes(cfg, run[i], run[i + 1]);
    }
  }

  /** In every run of the code the clocks of the leaders agree with what they were told, and are exact as long as
      they have not skipped. */
  lemma {:induction false} ClocksAlwaysOk(cfg: Config, run: seq<Tracked>, j: nat)
    requires IsTrackedRun(cfg, run) && j < |run|
    ensures ElectionInv(cfg, run[j].sys) && ClocksInv(cfg, run[j])
    decreases j
  {
    hide Moves, Init, ElectionInv, ClocksInv, IsAnyRun;
    TrackedIsAnyRun(cfg, run);
    AnyRunElects(cfg, Systems(run), j);
    if j == 0 {
      NoLeaderYet(cfg, run[0]);
    } else {
      ClocksAlwaysOk(cfg, run, j - 1);
      assert Moves(cfg, run[j - 1], run[j - 1 + 1]);
      MoveGoes(cfg, run[j - 1], run[j]);
    }
  }

  // ----- The progress, without skips ----------------------------------------------

  lemma CarriedLogOk(cfg: Config, c: Tracked, st: Step, l: Leading, l': Leading)
    requires |cfg.joint| > 0 && forall i :: 0 <= i < |cfg.joint| ==> cfg.joint[i] != {}
    requires !st.Advance? && Possible(cfg, c.sys, st)
    requires LeaderOn(c.sys, st.q) == Some(l) && st.q in c.tracks && !ReportSkips(c, st)
    requires LogOkOf(cfg, l, c.tracks[st.q].log) && l'.progress == ProgressAfter(l, Report(c.sys, st))
    ensures LogOkOf(cfg, l', TrackAfter(cfg, c.sys, c.tracks[st.q], st).log)
  {
    hide Skips, Update, Tracks, Exact, Ordered, Increased, IncreaseSkips, QuorumAccepted;
    var r := Report(c.sys, st);
    if r.Some? {
      ReportOk(cfg, l, c.tracks[st.q].log, r.value.0, r.value.1);
    }
  }

  /** The track of the node that took the step. */
  lemma StepTrackOk(cfg: Config, c: Tracked, st: Step)
    requires ElectionInv(cfg, c.sys) && TracksInv(cfg, c) && Can(cfg, c, Protocol(st)) && !st.Advance?
    requires !ReportSkips(c, st)
    ensures TrackOk(cfg, Make(cfg, c, Protocol(st)), st.q)
  {
    hide ElectionInv, Possible, Apply, LogOkOf, ClockOkOf, StartsEmpty, NewTrack, Skips, Update, HearsAt;
    var q, s' := st.q, Apply(cfg, c.sys, st);
    StepCarries(cfg, c.sys, st);
    var l, l' := LeaderOn(c.sys, q), LeaderOn(s', q);
    if l'.Some? {
      if l.None? {
        assert cfg.Valid() by { ValidOf(cfg, c.sys); }
        NewTrackOk(cfg, q, s'.now, l'.value);
      } else {
        assert TrackOk(cfg, c, q);
        NoEmptyChild(cfg, c.sys, q);
        CarriedLogOk(cfg, c, st, l.value, l'.value);
      }
    }
  }

  lemma OtherTrackOk(cfg: Config, c: Tracked, c': Tracked, p: NodeId)
    requires TrackOk(cfg, c, p) && LeaderOn(c'.sys, p) == LeaderOn(c.sys, p)
    requires p in c.tracks ==> p in c'.tracks && c'.tracks[p].log == c.tracks[p].log
    ensures TrackOk(cfg, c', p)
  {
    hide LogOkOf;
  }

  /** A step that does not skip commits the right value and leaves the progresses right. */
  lemma StepRefines(cfg: Config, c: Tracked, st: Step)
    requires ElectionInv(cfg, c.sys) && TracksInv(cfg, c) && Can(cfg, c, Protocol(st)) && !ReportSkips(c, st)
    ensures Enabled(cfg, c.sys, st) && TracksInv(cfg, Make(cfg, c, Protocol(st)))
  {
    hide ElectionInv, Possible, Apply, TrackOk, TrackAfter, NewTrack;
    var c' := Make(cfg, c, Protocol(st));
    CommitIsRight(cfg, c, st);
    if !st.Advance? {
      StepTrackOk(cfg, c, st);
      StepCarries(cfg, c.sys, st);
    } else {
      AdvanceIs(cfg, c.sys, st);
    }
    forall p | p in c'.sys.nodes ensures TrackOk(cfg, c', p) {
      if st.Advance? || p != st.q {
        OtherTrackOk(cfg, c, c', p);
      }
    }
  }

  lemma CommitIsRight(cfg: Config, c: Tracked, st: Step)
    requires ElectionInv(cfg, c.sys) && TracksInv(cfg, c) && Can(cfg, c, Protocol(st)) && !ReportSkips(c, st)
    ensures CommitRight(cfg, c.sys, st)
  {
    hide ElectionInv, QuorumAccepted, LogOkOf, Update, Skips;
    var r := Report(c.sys, st);
    if r.Some? {
      assert TrackOk(cfg, c, st.q);
      NoEmptyChild(cfg, c.sys, st.q);
      ReportOk(cfg, LeaderOn(c.sys, st.q).value, c.tracks[st.q].log, r.value.0, r.value.1);
    }
  }

  lemma LookKeepsLogs(cfg: Config, c: Tracked, q: NodeId)
    requires TracksInv(cfg, c) && Can(cfg, c, AckedTime(q))
    ensures TracksInv(cfg, Make(cfg, c, AckedTime(q)))
  {
    hide LogOkOf, Increased, IncreaseSkips;
    var c' := Make(cfg, c, AckedTime(q));
    forall p | p in c'.sys.nodes ensures TrackOk(cfg, c', p) {
      assert TrackOk(cfg, c, p);
    }
  }

  // ----- Every run ----------------------------------------------------------------

  /** One move without a skip, seen from the protocol. */
  lemma MoveRefines(cfg: Config, c: Tracked, c': Tracked)
    requires ElectionInv(cfg, c.sys) && TracksInv(cfg, c) && Moves(cfg, c, c') && !c'.skipped
    ensures Next(cfg, c.sys, c'.sys) && TracksInv(cfg, c')
  {
    hide ElectionInv, TracksInv, Possible, CommitRight, Apply, TracksAfter, ReportSkips;
    var mv :| Can(cfg, c, mv) && c' == Make(cfg, c, mv);
    match mv {
      case Protocol(st) =>
        StepRefines(cfg, c, st);
      case AckedTime(q) =>
        LookKeepsLogs(cfg, c, q);
        Stutter(cfg, c.sys);
    }
  }

  lemma Stutter(cfg: Config, s: Sys)
    ensures Next(cfg, s, s)
  {
    assert Enabled(cfg, s, Advance(0)) && s == Apply(cfg, s, Advance(0));
  }

  lemma SkippedStays(cfg: Config, c: Tracked, c': Tracked)
    requires Moves(cfg, c, c') && c.skipped
    ensures c'.skipped
  {
    hide Possible, Apply, CommitsReturned;
  }

  /** A run of the code in which no update of a progress has skipped is a run of the protocol, with tracks that
      are right. */
  lemma {:induction false} Refines(cfg: Config, run: seq<Tracked>)
    requires IsTrackedRun(cfg, run) && !run[|run| - 1].skipped
    ensures IsRun(cfg, Systems(run))
    ensures SysInv(cfg, run[|run| - 1].sys) && TracksInv(cfg, run[|run| - 1])
    decreases |run|
  {
    hide SysInv, ElectionInv, ClocksInv, Moves, Init, Next;
    var n := |run| - 1;
    if n == 0 {
      NoLeaderYet(cfg, run[0]);
    } else {
      assert Moves(cfg, run[n - 1], run[n - 1 + 1]);
      if run[n - 1].skipped {
        SkippedStays(cfg, run[n - 1], run[n]);
      }
      Refines(cfg, run[..n]);
      ClocksAlwaysOk(cfg, run, n - 1);
      MoveRefines(cfg, run[n - 1], run[n]);
      var ss := Systems(run);
      forall i | 0 <= i < n ensures Next(cfg, ss[i], ss[i + 1]) {
        assert i < n - 1 ==> Next(cfg, Systems(run[..n])[i], Systems(run[..n])[i + 1]);
      }
    }
    RunInv(cfg, Systems(run), n);
  }

  lemma NoLeaderYet(cfg: Config, c: Tracked)
    requires cfg.Valid() && Init(cfg, c.sys)
    ensures TracksInv(cfg, c) && ClocksInv(cfg, c)
  {
    forall q | q in c.sys.nodes ensures TrackOk(cfg, c, q) && ClockOk(cfg, c, q) {
      assert InitNode(q, c.sys.nodes[q], c.sys.now);
    }
  }

  lemma OthersStay(cfg: Config, s: Sys, st: Step)
    requires Possible(cfg, s, st) && !st.Advance?
    ensures OnlyNode(s, Apply(cfg, s, st), st.q)
  {
    hide HandleVoteReq, HandleVoteResp, HandleAppend, HandleProgress, HandleHeartbeat, TickElection, LeaderAppend;
  }

  /** In every run, with skips or without, each leader has its track, so that it commits what its own progress
      returned. */
  lemma {:induction false} LeadersAreTracked(cfg: Config, run: seq<Tracked>, j: nat, q: NodeId)
    requires IsTrackedRun(cfg, run) && j < |run|
    ensures LeaderOn(run[j].sys, q).Some? ==> q in run[j].tracks
    decreases j
  {
    hide Possible, Apply, CommitsReturned, NewTrack, TrackAfter, ReportSkips, HearsAt;
    if j == 0 {
      assert q in run[0].sys.nodes ==> InitNode(q, run[0].sys.nodes[q], run[0].sys.now);
    } else {
      LeadersAreTracked(cfg, run, j - 1, q);
      assert Moves(cfg, run[j - 1], run[j - 1 + 1]);
      var mv :| Can(cfg, run[j - 1], mv) && run[j] == Make(cfg, run[j - 1], mv);
      if mv.Protocol? {
        if mv.st.Advance? {
          AdvanceIs(cfg, run[j - 1].sys, mv.st);
        } else {
          OthersStay(cfg, run[j - 1].sys, mv.st);
        }
      }
    }
  }

  /** The same of every prefix of a run. */
  lemma {:induction false} NotSkippedBefore(cfg: Config, run: seq<Tracked>, i: nat, j: nat)
    requires IsTrackedRun(cfg, run) && i <= j < |run| && !run[j].skipped
    ensures !run[i].skipped
    decreases j
  {
    hide Moves, Init;
    if i < j {
      assert Moves(cfg, run[j - 1], run[j - 1 + 1]);
      if run[j - 1].skipped {
        SkippedStays(cfg, run[j - 1], run[j]);
      }
      NotSkippedBefore(cfg, run, i, j - 1);
    }
  }

  lemma PrefixRefines(cfg: Config, run: seq<Tracked>, j: nat) returns (ss: seq<Sys>)
    requires IsTrackedRun(cfg, run) && j < |run| && !run[j].skipped
    ensures IsRun(cfg, ss) && |ss| == j + 1 && forall i :: 0 <= i <= j ==> ss[i] == run[i].sys
    ensures SysInv(cfg, run[j].sys) && TracksInv(cfg, run[j])
  {
    hide SysInv, Moves, Init, Next, TracksInv, IsRun;
    var part := run[..j + 1];
    assert forall i :: 0 <= i < |part| ==> part[i] == run[i];
    Refines(cfg, part);
    ss := Systems(part);
  }

  // ----- Up to three voters -------------------------------------------------------

  /** A single config of at most three voters. */
  ghost predicate Small(cfg: Config) {
    |cfg.joint| == 1 && |cfg.joint[0]| <= 3
  }

  lemma SmallOneMajority(cfg: Config, p: LogProgress, progress: map<NodeId, Option<LogId>>)
    requires Small(cfg) && Tracks(cfg, p, progress)
    ensures OneMajority(p)
  {
    forall id ensures id in IdsOf(p.entries[..p.voterCount]) <==> id in cfg.joint[0] {
      IdOfVoter(p, id);
      assert id in Union(cfg.joint) <==> id in cfg.joint[0];
    }
  }

  lemma SmallReportNeverSkips(cfg: Config, c: Tracked, st: Step)
    requires Small(cfg) && TracksInv(cfg, c)
    ensures !ReportSkips(c, st)
  {
    hide Skips, Update, Exact, Ordered, Tracks;
    var r := Report(c.sys, st);
    if r.Some? && st.q in c.tracks {
      assert TrackOk(cfg, c, st.q);
      var p := c.tracks[st.q].log;
      IdOrderIsTotal();
      SmallOneMajority(cfg, p, LeaderOn(c.sys, st.q).value.progress);
      assert Shape(p) && p.quorumSet == cfg.joint by { TracksShape(cfg, p, LeaderOn(c.sys, st.q).value.progress); }
      SmallNeverSkips(IdOrder(), p, r.value.0, r.value.1, None);
    }
  }

  lemma TracksShape(cfg: Config, p: LogProgress, progress: map<NodeId, Option<LogId>>)
    requires Tracks(cfg, p, progress)
    ensures Shape(p) && p.quorumSet == cfg.joint
  {
  }

  /** With at most three voters no run of the code skips. */
  lemma {:induction false} SmallRunNeverSkips(cfg: Config, run: seq<Tracked>, j: nat)
    requires IsTrackedRun(cfg, run) && Small(cfg) && j < |run|
    ensures !run[j].skipped
    decreases j
  {
    hide SysInv, Possible, Apply, CommitsReturned, TracksInv, ReportSkips, Init, IsRun;
    if j > 0 {
      SmallRunNeverSkips(cfg, run, j - 1);
      var ss := PrefixRefines(cfg, run, j - 1);
      assert Moves(cfg, run[j - 1], run[j - 1 + 1]);
      var mv :| Can(cfg, run[j - 1], mv) && run[j] == Make(cfg, run[j - 1], mv);
      if mv.Protocol? {
        SmallReportNeverSkips(cfg, run[j - 1], mv.st);
      }
    }
  }
}
