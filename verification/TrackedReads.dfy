/** Reads under a lease, decided by the leader's incremental clock. */
module TrackedReads {
  import opened Ids
  import opened Quorum
  import opened ProgressSpec
  import opened ProgressRuns
  import opened ProgressFaults
  import opened EngineSpec
  import opened Cluster
  import opened Elections
  import opened ClusterReads
  import opened LeaderProgress
  import opened TrackedCluster
  import opened TrackedSafety
  import R = ClusterReadSteps

  /** `last_quorum_acked_time`: raises the leader's own clock to the present time, and returns what is accepted. */
  ghost function LastQuorumAcked(c: Tracked, q: NodeId): Option<nat>
    requires q in c.tracks
  {
    HearsAt(c.tracks[q], q, c.sys.now).clock.accepted
  }

  /** The check of a lease read. */
  ghost predicate LeaseRead(cfg: Config, c: Tracked, q: NodeId) {
    && LeaderOn(c.sys, q).Some? && q in c.tracks
    && LastQuorumAcked(c, q).Some? && c.sys.now < LastQuorumAcked(c, q).value + cfg.leaderLease
  }

  /** No update of the clock of the leader on `q` has skipped since it was elected. */
  ghost predicate ClockUnskipped(cfg: Config, c: Tracked, q: NodeId) {
    q in c.tracks && (!c.tracks[q].clockSkipped || Small(cfg))
  }

  // ----- Up to three voters -------------------------------------------------------

  lemma SmallClockNeverSkips(cfg: Config, q: NodeId, now: nat, l: Leading, t: Track, id: NodeId, time: nat)
    requires Small(cfg) && ClockOkOf(cfg, q, now, l, t) && !t.clockSkipped
    ensures !IncreaseSkips(t.clock, id, time)
  {
    hide Exact, Ordered, Skips;
    TimeOrderIsTotal();
    assert OneMajority(t.clock) by {
      forall x ensures x in IdsOf(t.clock.entries[..t.clock.voterCount]) <==> x in cfg.joint[0] {
        IdOfVoter(t.clock, x);
        assert x in Union(cfg.joint) <==> x in cfg.joint[0];
      }
    }
    SmallNeverSkips(TimeOrder(), t.clock, id, Some(time), None);
  }

  ghost predicate ClocksClean(c: Tracked) {
    forall q :: q in c.sys.nodes && LeaderOn(c.sys, q).Some? && q in c.tracks ==> !c.tracks[q].clockSkipped
  }

  lemma SmallStepClean(cfg: Config, c: Tracked, mv: Move)
    requires Small(cfg) && ElectionInv(cfg, c.sys) && ClocksInv(cfg, c) && ClocksClean(c) && Can(cfg, c, mv)
    ensures ClocksClean(Make(cfg, c, mv))
  {
    hide ElectionInv, Possible, Apply, CommitsReturned, NewTrack, Update, LogOkOf, ClockOkOf, IncreaseSkips, Increased;
    var c' := Make(cfg, c, mv);
    match mv {
      case AckedTime(q) =>
        assert ClockOk(cfg, c, q);
        SmallClockNeverSkips(cfg, q, c.sys.now, LeaderOn(c.sys, q).value, c.tracks[q], q, c.sys.now);
      case Protocol(st) =>
        if st.Advance? {
          AdvanceIs(cfg, c.sys, st);
        } else {
          StepCarries(cfg, c.sys, st);
          NewIsClean(cfg);
          if LeaderOn(c.sys, st.q).Some? {
            assert ClockOk(cfg, c, st.q);
            var h := Heard(cfg, c.sys, st);
            if h.Some? {
              SmallClockNeverSkips(cfg, st.q, c.sys.now, LeaderOn(c.sys, st.q).value, c.tracks[st.q], h.value.0, h.value.1);
            }
          }
        }
    }
  }

  lemma NewIsClean(cfg: Config)
    ensures !NewTrack(cfg).clockSkipped
  {
  }

  lemma {:induction false} SmallRunClean(cfg: Config, run: seq<Tracked>, j: nat)
    requires IsTrackedRun(cfg, run) && Small(cfg) && j < |run|
    ensures ClocksClean(run[j])
    decreases j
  {
    hide Small, ElectionInv, ClocksInv, Can, Make, Init;
    if j > 0 {
      SmallRunClean(cfg, run, j - 1);
      ClocksAlwaysOk(cfg, run, j - 1);
      assert Moves(cfg, run[j - 1], run[j - 1 + 1]);
      var mv :| Can(cfg, run[j - 1], mv) && run[j] == Make(cfg, run[j - 1], mv);
      SmallStepClean(cfg, run[j - 1], mv);
    }
  }

  // ----- What the clock answers ---------------------------------------------------

  /** An accepted time is the greatest one a quorum has reached, counting the leader itself as of now. This holds
      of the look that skips, too: only later ones go wrong. */
  lemma AckedIsGreatest(cfg: Config, c: Tracked, q: NodeId, t: nat)
    requires |cfg.joint| > 0 && ClockOk(cfg, c, q) && LeaderOn(c.sys, q).Some? && !c.tracks[q].clockSkipped
    ensures LastQuorumAcked(c, q).Some? ==>
              IsQuorum(cfg.joint, ClockReached(Clocks(c.sys, q), LastQuorumAcked(c, q).value))
    ensures IsQuorum(cfg.joint, ClockReached(Clocks(c.sys, q), t)) ==> TimeLe(Some(t), LastQuorumAcked(c, q))
  {
    hide TracksClock, Increased, Exact, Ordered, LogOkOf, IncreaseSkips, IsQuorum;
    var l, tr, now := LeaderOn(c.sys, q).value, c.tracks[q], c.sys.now;
    var p := Increased(tr.clock, q, now);
    ClockShape(cfg, q, now, tr.clock, l.clock);
    IncreaseKeeps(tr.clock, q, now);
    IncreaseTracks(cfg, q, now, tr.clock, l.clock, q, now);
    if p.accepted.Some? {
      AcceptedTimeIsReached(cfg, q, now, p, l.clock, ClockReached(Clocks(c.sys, q), p.accepted.value));
    }
    if IsQuorum(cfg.joint, ClockReached(Clocks(c.sys, q), t)) {
      ReachedValues(cfg, q, now, tr.clock, l.clock, t);
      AcceptedTimeIsGreatest(cfg, q, now, p, l.clock, ClockReached(Clocks(c.sys, q), t), t);
    }
  }

  lemma ReachedValues(cfg: Config, q: NodeId, now: nat, p: ClockProgress, clock: map<NodeId, Option<nat>>, t: nat)
    requires TracksClock(cfg, q, now, p, clock)
    ensures forall id :: id in ClockReached(if q in clock then clock[q := Some(now)] else clock, t) ==>
              Value(Increased(p, q, now), id).Some? && TimeLe(Some(t), Value(Increased(p, q, now), id).value)
  {
    hide Increased;
    IncreaseTracks(cfg, q, now, p, clock, q, now);
    if q in clock {
      OwnIncreased(cfg, q, now, p, clock);
    }
  }

  /** In every run, whatever the progresses have skipped, the check accepts a read exactly when a quorum has
      acknowledged the leader less than a lease ago. */
  lemma LeaseReadIsExact(cfg: Config, run: seq<Tracked>, i: nat, q: NodeId)
    requires IsTrackedRun(cfg, run) && i < |run|
    requires q in run[i].sys.nodes && LeaderOn(run[i].sys, q).Some? && ClockUnskipped(cfg, run[i], q)
    ensures LeaseRead(cfg, run[i], q) <==> LeaseReadAccepted(cfg, run[i].sys, q)
  {
    hide ElectionInv, IsTrackedRun, ClockOk, LastQuorumAcked, Clocks, ClockReached, IsQuorum;
    var c := run[i];
    ClocksAlwaysOk(cfg, run, i);
    assert ClockOk(cfg, c, q);
    if Small(cfg) {
      SmallRunClean(cfg, run, i);
    }
    NoEmptyChild(cfg, c.sys, q);
    AckedIsGreatest(cfg, c, q, 0);
    if LeaseReadAccepted(cfg, c.sys, q) {
      var t: nat :| IsQuorum(cfg.joint, ClockReached(Clocks(c.sys, q), t)) && c.sys.now < t + cfg.leaderLease;
      AckedIsGreatest(cfg, c, q, t);
    }
  }

  // ----- Reads under a lease ------------------------------------------------------

  /** In every run, whatever the progresses have skipped: when a leader accepts a read under its lease, every other
      leader has an earlier vote. */
  lemma LeaseReadIsExclusive(cfg: Config, run: seq<Tracked>, i: nat, q: NodeId, p: NodeId)
    requires IsTrackedRun(cfg, run) && i < |run|
    requires LeaseRead(cfg, run[i], q) && ClockUnskipped(cfg, run[i], q)
    requires p in run[i].sys.nodes && p != q && run[i].sys.nodes[p].leader.Some?
    ensures Lt(run[i].sys.nodes[p].leader.value.id, run[i].sys.nodes[q].leader.value.id)
  {
    hide IsTrackedRun, IsAnyRun, LastQuorumAcked, LeaseReadAccepted;
    LeaseReadIsExact(cfg, run, i, q);
    TrackedIsAnyRun(cfg, run);
    R.LeaseReadIsExclusive(cfg, Systems(run), i, q, p);
  }

  /** A read accepted under the lease waits for a log id at or above everything any node has committed by then, and
      the leader's log holds all of it. */
  lemma LeaseReadSeesAllCommits(cfg: Config, run: seq<Tracked>, j: nat, i: nat, q: NodeId, p: NodeId)
    requires IsTrackedRun(cfg, run) && j <= i < |run| && Unskipped(cfg, run[i])
    requires LeaseRead(cfg, run[i], q) && ClockUnskipped(cfg, run[i], q) && p in run[j].sys.nodes
    ensures var c := run[j].sys.nodes[p].committed;
            && OptLe(c, Some(ReadLogId(run[i].sys.nodes[q])))
            && NextIndex(c) <= ReadLogId(run[i].sys.nodes[q]).index + 1
            && Agree(run[j].sys.nodes[p].log, run[i].sys.nodes[q].log, NextIndex(c))
  {
    hide SysInv, TracksInv, IsTrackedRun, IsRun, LastQuorumAcked, LeaseReadAccepted, Agree;
    var ss := AsProtocol(cfg, run, i);
    LeaseReadIsExact(cfg, run, i, q);
    R.LeaseReadSeesAllCommits(cfg, ss, j, i, q, p);
  }
}
