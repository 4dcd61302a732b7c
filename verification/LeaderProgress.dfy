/** The leader's two progresses: what the incremental progress accepts is what the commit step of the
    cluster asks for, and what a quorum has acknowledged of its clock. */
module LeaderProgress {
  import opened Ids
  import opened Quorum
  import opened ProgressSpec
  import opened ProgressRuns
  import opened EngineSpec
  import C = Cluster

  function IdOrder(): Order<Option<LogId>> {
    (a: Option<LogId>, b: Option<LogId>) => OptLe(a, b)
  }

  lemma IdOrderIsTotal()
    ensures TotalOrder(IdOrder()) && Least(IdOrder(), None)
  {
  }

  /** `p` tracks the members of `progress` for the voters of `cfg`. */
  ghost predicate Tracks(cfg: Config, p: Progress<Option<LogId>>, progress: map<NodeId, Option<LogId>>) {
    && Shape(p)
    && p.quorumSet == cfg.joint
    && (forall id :: Value(p, id) == if id in progress then Some(progress[id]) else None)
    && forall id :: id in Union(cfg.joint) <==> IsVoter(p, id) == Some(true)
  }

  lemma HoldersAreReached(cfg: Config, p: Progress<Option<LogId>>, progress: map<NodeId, Option<LogId>>, v: Option<LogId>)
    requires Tracks(cfg, p, progress)
    ensures Holders(IdOrder(), p.entries[..p.voterCount], v) == C.Reached(progress, v) * Union(cfg.joint)
  {
    forall id ensures id in Holders(IdOrder(), p.entries[..p.voterCount], v)
                 <==> id in C.Reached(progress, v) * Union(cfg.joint)
    {
      VoterEntry(IdOrder(), p, id);
      assert IsVoter(p, id).Some? == Value(p, id).Some?;
    }
  }

  /** In a non-empty set of entries one has the least value. */
  lemma {:induction false} LeastHolder(es: set<IdVal<Option<LogId>>>) returns (m: IdVal<Option<LogId>>)
    requires es != {}
    ensures m in es && forall e :: e in es ==> OptLe(m.val, e.val)
  {
    IdOrderIsTotal();
    m :| m in es;
    if es != {m} {
      var n := LeastHolder(es - {m});
      assert OptLe(m.val, n.val) || OptLe(n.val, m.val);
      assert IdOrder()(m.val, n.val) == OptLe(m.val, n.val);
      var k := m;
      if OptLe(n.val, m.val) {
        m := n;
      }
      forall e | e in es ensures OptLe(m.val, e.val) {
        assert e != k ==> e in es - {k} && OptLe(n.val, e.val);
        assert e != k ==> IdOrder()(m.val, n.val) && IdOrder()(n.val, e.val);
        assert e != k ==> IdOrder()(m.val, e.val);
      }
    }
  }

  /** An accepted value above the default is the value of a voter. */
  lemma AcceptedIsHeld(p: Progress<Option<LogId>>)
    requires Shape(p) && Exact(IdOrder(), p, None) && p.accepted.Some?
    ensures exists k :: 0 <= k < p.voterCount && p.entries[k].val == p.accepted
  {
    IdOrderIsTotal();
    var le, ws := IdOrder(), p.entries[..p.voterCount];
    var es := set e | e in ws && le(p.accepted, e.val);
    assert Holders(le, ws, p.accepted) != {};
    var id :| id in Holders(le, ws, p.accepted);
    var e :| e in ws && le(p.accepted, e.val) && e.id == id;
    assert e in es;
    var m := LeastHolder(es);
    assert Holders(le, ws, m.val) == Holders(le, ws, p.accepted) by {
      forall f | f in ws ensures le(p.accepted, f.val) <==> le(m.val, f.val) {
        assert le(p.accepted, f.val) ==> f in es;
        assert le(m.val, f.val) == OptLe(m.val, f.val);
      }
    }
    assert Accepts(le, p, m.val);
    var k :| 0 <= k < |ws| && ws[k] == m;
  }

  lemma ReachedAccepts(cfg: Config, p: Progress<Option<LogId>>, progress: map<NodeId, Option<LogId>>, v: Option<LogId>)
    requires |cfg.joint| > 0 && Tracks(cfg, p, progress)
    ensures Accepts(IdOrder(), p, v) <==> IsQuorum(cfg.joint, C.Reached(progress, v))
  {
    HoldersAreReached(cfg, p, progress, v);
    OnlyVotersCount(cfg.joint, C.Reached(progress, v));
  }

  lemma DefaultIsReached(cfg: Config, p: Progress<Option<LogId>>, progress: map<NodeId, Option<LogId>>)
    requires (forall i :: 0 <= i < |cfg.joint| ==> cfg.joint[i] != {}) && Tracks(cfg, p, progress)
    ensures IsQuorum(cfg.joint, C.Reached(progress, None))
  {
    forall i | 0 <= i < |cfg.joint| ensures Majority(cfg.joint[i], C.Reached(progress, None)) {
      forall id | id in cfg.joint[i] ensures id in C.Reached(progress, None) {
        assert id in Union(cfg.joint);
        assert IsVoter(p, id).Some? == Value(p, id).Some?;
      }
      assert C.Reached(progress, None) * cfg.joint[i] == cfg.joint[i];
    }
  }

  /** An exact progress gives the value the commit step of the cluster asks for. */
  lemma ExactIsQuorumAccepted(cfg: Config, p: Progress<Option<LogId>>, progress: map<NodeId, Option<LogId>>)
    requires |cfg.joint| > 0 && (forall i :: 0 <= i < |cfg.joint| ==> cfg.joint[i] != {})
    requires Tracks(cfg, p, progress) && Exact(IdOrder(), p, None)
    ensures C.QuorumAccepted(cfg, progress, p.accepted)
  {
    hide IsQuorum, Accepts, C.Reached, Union;
    ReachedAccepts(cfg, p, progress, p.accepted);
    if p.accepted.None? {
      DefaultIsReached(cfg, p, progress);
    } else {
      AcceptedIsHeld(p);
      var k :| 0 <= k < p.voterCount && p.entries[k].val == p.accepted;
      IndexOf(p.entries, k);
      var id := p.entries[k].id;
      assert Value(p, id) == Some(p.accepted);
      assert id in progress && progress[id] == p.accepted;
    }
    forall q | q in progress && IsQuorum(cfg.joint, C.Reached(progress, progress[q])) ensures OptLe(progress[q], p.accepted) {
      ReachedAccepts(cfg, p, progress, progress[q]);
      assert IdOrder()(progress[q], p.accepted);
    }
  }

  /** A report that raises the progress of `target`, and skips nothing, makes the value returned by
      `update_with` right for the commit step. */
  lemma UpdateIsGranted(cfg: Config, p: Progress<Option<LogId>>, progress: map<NodeId, Option<LogId>>,
                        target: NodeId, matching: Option<LogId>)
    requires |cfg.joint| > 0 && (forall i :: 0 <= i < |cfg.joint| ==> cfg.joint[i] != {})
    requires Tracks(cfg, p, progress) && Exact(IdOrder(), p, None) && Ordered(IdOrder(), p)
    requires target in progress && OptLe(progress[target], matching) && !Skips(IdOrder(), p, target, matching)
    ensures var p' := Update(IdOrder(), p, target, matching);
            && Tracks(cfg, p', progress[target := matching]) && Exact(IdOrder(), p', None) && Ordered(IdOrder(), p')
            && C.QuorumAccepted(cfg, progress[target := matching], p'.accepted)
  {
    IdOrderIsTotal();
    var p' := Update(IdOrder(), p, target, matching);
    UpdateKeeps(IdOrder(), p, target, matching, None);
    var more := progress[target := matching];
    forall id ensures Value(p', id) == (if id in more then Some(more[id]) else None) && IsVoter(p', id) == IsVoter(p, id)
    {
      UpdateContents(IdOrder(), p, target, matching, id);
    }
    hide Update, Exact, Value, IsVoter;
    ExactIsQuorumAccepted(cfg, p', progress[target := matching]);
  }

  // ----- The clock ----------------------------------------------------------------

  predicate TimeLe(a: Option<nat>, b: Option<nat>) {
    a.None? || (b.Some? && a.value <= b.value)
  }

  function TimeOrder(): Order<Option<nat>> {
    (a: Option<nat>, b: Option<nat>) => TimeLe(a, b)
  }

  lemma TimeOrderIsTotal()
    ensures TotalOrder(TimeOrder()) && Least(TimeOrder(), None)
  {
  }

  /** `p` tracks the clocks of all members; the leader `me` is ahead of what others know of it, but not of `now`. */
  ghost predicate TracksClock(cfg: Config, me: NodeId, now: nat, p: Progress<Option<nat>>, clock: map<NodeId, Option<nat>>) {
    && Shape(p)
    && p.quorumSet == cfg.joint
    && (forall id :: id in Union(cfg.joint) <==> IsVoter(p, id) == Some(true))
    && (forall id :: Value(p, id).Some? <==> id in clock)
    && (forall id :: id in clock && id != me ==> Value(p, id) == Some(clock[id]))
    && (me in clock && Value(p, me).value.Some? ==> Value(p, me).value.value <= now)
  }

  /** `increase_to`. */
  ghost function Increased(p: Progress<Option<nat>>, id: NodeId, time: nat): (r: Progress<Option<nat>>)
    requires p.voterCount <= |p.entries|
    ensures r.voterCount == p.voterCount && |r.entries| == |p.entries|
  {
    if Value(p, id).Some? && TimeLe(Some(time), Value(p, id).value) then p else Update(TimeOrder(), p, id, Some(time))
  }

  /** `increase_to` raises the value of a member in place past the one in front of it. */
  ghost predicate IncreaseSkips(p: Progress<Option<nat>>, id: NodeId, time: nat)
    requires p.voterCount <= |p.entries|
  {
    !(Value(p, id).Some? && TimeLe(Some(time), Value(p, id).value)) && Skips(TimeOrder(), p, id, Some(time))
  }

  lemma IncreaseKeeps(p: Progress<Option<nat>>, id: NodeId, time: nat)
    requires Shape(p) && Exact(TimeOrder(), p, None) && Ordered(TimeOrder(), p)
    ensures var p' := Increased(p, id, time);
            Exact(TimeOrder(), p', None) && (Ordered(TimeOrder(), p') <==> !IncreaseSkips(p, id, time))
  {
    TimeOrderIsTotal();
    if !(Value(p, id).Some? && TimeLe(Some(time), Value(p, id).value)) {
      UpdateKeeps(TimeOrder(), p, id, Some(time), None);
    }
  }

  /** What an increase does to the clock of `id` and of everyone else. */
  lemma IncreaseTracks(cfg: Config, me: NodeId, now: nat, p: Progress<Option<nat>>, clock: map<NodeId, Option<nat>>,
                       id: NodeId, time: nat)
    requires TracksClock(cfg, me, now, p, clock) && time <= now
    ensures var known := if id in clock && id != me && !TimeLe(Some(time), clock[id]) then clock[id := Some(time)] else clock;
            TracksClock(cfg, me, now, Increased(p, id, time), known)
  {
    hide Update, TotalOrder, Least, Distinct, Index, Union;
    TimeOrderIsTotal();
    if !(Value(p, id).Some? && TimeLe(Some(time), Value(p, id).value)) {
      var p' := Update(TimeOrder(), p, id, Some(time));
      forall other
        ensures Value(p', other) == (if other == id && Value(p, id).Some? then Some(Some(time)) else Value(p, other))
             && IsVoter(p', other) == IsVoter(p, other)
      {
        UpdateContents(TimeOrder(), p, id, Some(time), other);
      }
      UpdateContents(TimeOrder(), p, id, Some(time), 0);
    }
  }

  /** Voters, and a quorum of them, have reached an accepted time. */
  lemma AcceptedTimeIsReached(cfg: Config, me: NodeId, now: nat, p: Progress<Option<nat>>, clock: map<NodeId, Option<nat>>,
                              ids: set<NodeId>)
    requires TracksClock(cfg, me, now, p, clock) && Exact(TimeOrder(), p, None) && p.accepted.Some?
    requires forall id :: id in clock && id != me && clock[id].Some? && p.accepted.value <= clock[id].value ==> id in ids
    requires me in clock && p.accepted.value <= now ==> me in ids
    ensures IsQuorum(cfg.joint, ids)
  {
    var held := Holders(TimeOrder(), p.entries[..p.voterCount], p.accepted);
    assert held <= ids by {
      forall id | id in held ensures id in ids {
        VoterEntry(TimeOrder(), p, id);
        assert Value(p, id).Some?;
      }
    }
    QuorumGrows(cfg.joint, held, ids);
  }

  /** The leader's own clock, raised to the present time. */
  lemma OwnIncreased(cfg: Config, me: NodeId, now: nat, p: Progress<Option<nat>>, clock: map<NodeId, Option<nat>>)
    requires TracksClock(cfg, me, now, p, clock) && me in clock
    ensures Value(Increased(p, me, now), me) == Some(Some(now))
  {
    TimeOrderIsTotal();
    UpdateContents(TimeOrder(), p, me, Some(now), me);
  }

  /** No quorum has reached a time after the accepted one. */
  lemma AcceptedTimeIsGreatest(cfg: Config, me: NodeId, now: nat, p: Progress<Option<nat>>, clock: map<NodeId, Option<nat>>,
                               ids: set<NodeId>, t: nat)
    requires |cfg.joint| > 0 && TracksClock(cfg, me, now, p, clock) && Exact(TimeOrder(), p, None)
    requires forall id :: id in ids ==> Value(p, id).Some? && TimeLe(Some(t), Value(p, id).value)
    requires IsQuorum(cfg.joint, ids)
    ensures TimeLe(Some(t), p.accepted)
  {
    var held := Holders(TimeOrder(), p.entries[..p.voterCount], Some(t));
    assert ids * Union(cfg.joint) <= held by {
      forall id | id in ids * Union(cfg.joint) ensures id in held {
        VoterEntry(TimeOrder(), p, id);
      }
    }
    OnlyVotersCount(cfg.joint, ids);
    QuorumGrows(cfg.joint, ids * Union(cfg.joint), held);
    assert Accepts(TimeOrder(), p, Some(t));
  }
}
