/** The transitions of the reduced protocol, and the proof that each keeps `Ballots.Inv`. */
module BallotSteps {
  import opened Ids
  import opened Quorum
  import opened Ballots

  // ----- Growth of the history ----------------------------------------------------

  /** Candidacies never change, wins are never undone, and a leader's log only grows. */
  ghost predicate Grows(h: History, h': History) {
    && (forall v :: v in h.camp ==> v in h'.camp && h'.camp[v] == h.camp[v])
    && (forall u :: u in h.elect ==> ElectGrows(h, h', u))
  }

  ghost predicate ElectGrows(h: History, h': History, u: LeaderId)
    requires u in h.elect
  {
    && u in h'.elect
    && h'.elect[u].granters == h.elect[u].granters
    && Agree(h.elect[u].log, h'.elect[u].log, |h.elect[u].log|)
  }

  lemma LogOkGrows(h: History, h': History, log: Log)
    requires Grows(h, h') && LogOk(h, log)
    ensures LogOk(h', log)
  {
    forall p | 0 <= p < |log| ensures FromLeader(h', log, p) {
      assert FromLeader(h, log, p);
      assert ElectGrows(h, h', log[p]);
    }
  }

  lemma HoldsGrows(h: History, h': History, log: Log, u: LeaderId, i: nat)
    requires Grows(h, h') && u in h.elect && i < |h.elect[u].log|
    ensures u in h'.elect && Holds(h', log, u, i) == Holds(h, log, u, i)
  {
    assert ElectGrows(h, h', u);
  }

  lemma ProposedGrows(h: History, h': History, u: LeaderId, i: nat)
    requires Grows(h, h') && u in h.elect && i < |h.elect[u].log|
    ensures Proposed(h', u, i) == Proposed(h, u, i)
  {
    assert ElectGrows(h, h', u);
  }

  lemma MissedGrows(h: History, h': History, w: LeaderId, u: LeaderId, i: nat)
    requires Grows(h, h') && u in h.elect && i < |h.elect[u].log| && Missed(h, w, u, i)
    ensures u in h'.elect && Missed(h', w, u, i)
  {
    HoldsGrows(h, h', h.camp[w], u, i);
    assert ElectGrows(h, h', w);
  }

  lemma LostBeforeGrows(h: History, h': History, u: LeaderId, i: nat, v: LeaderId)
    requires Grows(h, h') && u in h.elect && i < |h.elect[u].log| && LostBefore(h, u, i, v)
    ensures u in h'.elect && LostBefore(h', u, i, v)
  {
    var w :| Lt(w, v) && Missed(h, w, u, i);
    MissedGrows(h, h', w, u, i);
  }

  lemma LostUpToGrows(h: History, h': History, u: LeaderId, i: nat, v: LeaderId, v': LeaderId)
    requires Grows(h, h') && u in h.elect && i < |h.elect[u].log| && LostUpTo(h, u, i, v) && Le(v, v')
    ensures u in h'.elect && LostUpTo(h', u, i, v')
  {
    var w :| Le(w, v) && Missed(h, w, u, i);
    MissedGrows(h, h', w, u, i);
  }

  /** An acknowledged position lies inside the leader's log of the same moment. */
  lemma AckedInside(h: History, joint: seq<set<NodeId>>, q: NodeId, u: LeaderId, i: nat)
    requires Shape(h, joint) && Acked(h, q, u, i)
    ensures q in h.votes && q in h.logs && u in h.elect && i < |h.elect[u].log| && Le(u, h.votes[q])
  {
    var a :| a in h.acks && a.node == q && a.leader == u && i <= a.index;
    assert AckOk(h, a);
  }

  // ----- What growth keeps ---------------------------------------------------------

  /** `Shape` only has to be shown for what is new in `h'`. */
  lemma ShapeKept(h: History, h': History, joint: seq<set<NodeId>>)
    requires Shape(h, joint) && Grows(h, h')
    requires h'.votes.Keys == h.votes.Keys == h'.logs.Keys && h.grants <= h'.grants
    requires forall q :: q in h.votes ==> Le(h.votes[q], h'.votes[q])
    requires forall q :: q in h.votes ==> h'.logs[q] == h.logs[q] || NodeOk(h', q)
    requires forall v :: v in h'.camp ==> v in h.camp || CampOk(h', v)
    requires forall u :: u in h'.elect ==> (u in h.elect && h'.elect[u] == h.elect[u]) || WinOk(h', joint, u)
    requires forall g :: g in h'.grants ==> g in h.grants || GrantOk(h', g)
    requires forall a :: a in h'.acks ==> a in h.acks || AckOk(h', a)
    ensures Shape(h', joint)
  {
    forall q | q in h'.votes ensures NodeOk(h', q) {
      NodeKept(h, h', joint, q);
    }
    forall v | v in h'.camp ensures CampOk(h', v) {
      CampKept(h, h', joint, v);
    }
    forall u | u in h'.elect ensures WinOk(h', joint, u) {
      WinKept(h, h', joint, u);
    }
    forall g | g in h'.grants ensures GrantOk(h', g) {
      if g in h.grants {
        assert GrantOk(h, g);
        LogOkGrows(h, h', g.log);
      }
    }
    forall a | a in h'.acks ensures AckOk(h', a) {
      if a in h.acks {
        assert AckOk(h, a);
        assert ElectGrows(h, h', a.leader);
      }
    }
  }

  lemma NodeKept(h: History, h': History, joint: seq<set<NodeId>>, q: NodeId)
    requires Shape(h, joint) && Grows(h, h') && h'.votes.Keys == h.votes.Keys == h'.logs.Keys
    requires q in h.votes && Le(h.votes[q], h'.votes[q]) && (h'.logs[q] == h.logs[q] || NodeOk(h', q))
    ensures NodeOk(h', q)
  {
    assert NodeOk(h, q);
    LogOkGrows(h, h', h.logs[q]);
  }

  lemma CampKept(h: History, h': History, joint: seq<set<NodeId>>, v: LeaderId)
    requires Shape(h, joint) && Grows(h, h') && h'.votes.Keys == h.votes.Keys
    requires forall q :: q in h.votes ==> Le(h.votes[q], h'.votes[q])
    requires v in h'.camp && (v in h.camp || CampOk(h', v))
    ensures CampOk(h', v)
  {
    if v in h.camp {
      assert CampOk(h, v);
      LogOkGrows(h, h', h.camp[v]);
    }
  }

  lemma WinKept(h: History, h': History, joint: seq<set<NodeId>>, u: LeaderId)
    requires Shape(h, joint) && Grows(h, h') && h.grants <= h'.grants
    requires u in h'.elect && ((u in h.elect && h'.elect[u] == h.elect[u]) || WinOk(h', joint, u))
    ensures WinOk(h', joint, u)
  {
    if u in h.elect && h'.elect[u] == h.elect[u] {
      assert WinOk(h, joint, u);
      LogOkGrows(h, h', h.elect[u].log);
      forall q | q in h.elect[u].granters ensures HasGrant(h', q, u) {
        assert HasGrant(h, q, u);
      }
    }
  }

  // ----- Raise --------------------------------------------------------------------

  lemma RaiseKeepsShape(h: History, joint: seq<set<NodeId>>, q: NodeId, v: LeaderId)
    requires Shape(h, joint) && q in h.votes && Le(h.votes[q], v)
    ensures Shape(Raise(h, q, v), joint) && Grows(h, Raise(h, q, v))
  {
    ShapeKept(h, Raise(h, q, v), joint);
  }

  /** When neither acknowledgements, grants nor wins change, only `LogsKeep` has to be redone. */
  /** A grant given before keeps what it kept. */
  lemma OldGrantKeeps(h: History, h': History, g: Grant, u: LeaderId, i: nat)
    requires Grows(h, h') && h'.elect.Keys == h.elect.Keys && u in h.elect && i < |h.elect[u].log|
    requires GrantKeeps(h, g, u, i)
    ensures u in h'.elect && GrantKeeps(h', g, u, i)
  {
    HoldsGrows(h, h', g.log, u, i);
    if LostBefore(h, u, i, g.vote) {
      LostBeforeGrows(h, h', u, i, g.vote);
    }
  }

  lemma SameGrantsKeep(h: History, h': History, joint: seq<set<NodeId>>)
    requires Inv(h, joint) && Grows(h, h')
    requires h'.acks == h.acks && h'.grants == h.grants && h'.elect.Keys == h.elect.Keys
    ensures GrantsKeep(h') && WinsKeep(h')
  {
    forall g, u, i |
      g in h'.grants && g.vote !in h'.elect && Proposed(h', u, i) && Lt(u, g.vote) && Acked(h', g.node, u, i)
      ensures GrantKeeps(h', g, u, i)
    {
      assert Acked(h, g.node, u, i);
      AckedInside(h, joint, g.node, u, i);
      ProposedGrows(h, h', u, i);
      OldGrantKeeps(h, h', g, u, i);
    }
    forall v | v in h'.elect ensures v in h'.camp && WinnerKeeps(h', v) {
      WinnerKept(h, h', joint, v);
    }
  }

  lemma WinnerKept(h: History, h': History, joint: seq<set<NodeId>>, v: LeaderId)
    requires Inv(h, joint) && Grows(h, h') && h'.acks == h.acks && v in h.elect
    ensures v in h'.elect && v in h'.camp && WinnerKeeps(h', v)
  {
    assert v in h.camp && WinnerKeeps(h, v);
    assert ElectGrows(h, h', v);
    forall q, u, i |
      q in h'.elect[v].granters && Proposed(h', u, i) && Lt(u, v) && Acked(h', q, u, i)
      ensures WinKeeps(h', v, u, i)
    {
      assert Acked(h, q, u, i);
      AckedInside(h, joint, q, u, i);
      ProposedGrows(h, h', u, i);
      assert WinKeeps(h, v, u, i);
      HoldsGrows(h, h', h.camp[v], u, i);
      if LostBefore(h, u, i, v) {
        LostBeforeGrows(h, h', u, i, v);
      }
    }
  }

  /** Votes rise, the log of every node keeps what it held: acknowledged entries stay. */
  lemma LogsKeptByVotes(h: History, h': History, joint: seq<set<NodeId>>)
    requires Inv(h, joint) && NodesOk(h') && Grows(h, h') && h'.acks == h.acks
    requires h'.votes.Keys == h.votes.Keys
    requires forall q :: q in h.votes ==> Le(h.votes[q], h'.votes[q])
    requires forall q :: q in h.votes ==> Agree(h.logs[q], h'.logs[q], |h.logs[q]|)
    ensures LogsKeep(h')
  {
    forall q, u, i | q in h'.votes && Proposed(h', u, i) && Acked(h', q, u, i)
      ensures LogKeeps(h', q, u, i)
    {
      assert Acked(h, q, u, i);
      AckedInside(h, joint, q, u, i);
      ProposedGrows(h, h', u, i);
      assert LogKeeps(h, q, u, i);
      HoldsGrows(h, h', h'.logs[q], u, i);
      if LostUpTo(h, u, i, h.votes[q]) {
        LostUpToGrows(h, h', u, i, h.votes[q], h'.votes[q]);
      }
    }
  }

  lemma RaiseKeeps(h: History, joint: seq<set<NodeId>>, q: NodeId, v: LeaderId)
    requires Inv(h, joint) && q in h.votes && Le(h.votes[q], v)
    ensures Inv(Raise(h, q, v), joint) && Grows(h, Raise(h, q, v))
  {
    RaiseKeepsShape(h, joint, q, v);
    var h' := Raise(h, q, v);
    LogsKeptByVotes(h, h', joint);
    SameGrantsKeep(h, h', joint);
  }

  // ----- Campaign -----------------------------------------------------------------

  lemma CampaignIsFresh(h: History, joint: seq<set<NodeId>>, q: NodeId, v: LeaderId)
    requires Shape(h, joint) && q in h.votes && v.node == q && Lt(h.votes[q], v)
    ensures v !in h.camp && v !in h.elect
  {
    hide Shape;
    if v in h.elect {
      WinnerStood(h, joint, v);
    }
    if v in h.camp {
      CampIsPast(h, joint, v);
    }
  }

  lemma WinnerStood(h: History, joint: seq<set<NodeId>>, v: LeaderId)
    requires Shape(h, joint) && v in h.elect
    ensures v in h.camp
  {
    assert WinOk(h, joint, v);
  }

  lemma CampIsPast(h: History, joint: seq<set<NodeId>>, v: LeaderId)
    requires Shape(h, joint) && v in h.camp
    ensures v == GENESIS || (v.node in h.votes && Le(v, h.votes[v.node]))
  {
    assert CampOk(h, v);
  }

  lemma CampaignKeepsShape(h: History, joint: seq<set<NodeId>>, q: NodeId, v: LeaderId)
    requires Shape(h, joint) && q in h.votes && q in h.logs && v.node == q && Lt(h.votes[q], v)
    ensures Shape(Campaign(h, q, v), joint) && Grows(h, Campaign(h, q, v))
  {
    CampaignIsFresh(h, joint, q, v);
    var h' := Campaign(h, q, v);
    assert NodeOk(h, q);
    LogOkGrows(h, h', h.logs[q]);
    ShapeKept(h, h', joint);
  }

  lemma CampaignKeeps(h: History, joint: seq<set<NodeId>>, q: NodeId, v: LeaderId)
    requires Inv(h, joint) && q in h.votes && q in h.logs && v.node == q && Lt(h.votes[q], v)
    ensures Inv(Campaign(h, q, v), joint) && Grows(h, Campaign(h, q, v)) && v !in h.camp && v !in h.elect
  {
    CampaignIsFresh(h, joint, q, v);
    CampaignKeepsShape(h, joint, q, v);
    var h' := Campaign(h, q, v);
    LogsKeptByVotes(h, h', joint);
    SameGrantsKeep(h, h', joint);
  }

  // ----- Grant --------------------------------------------------------------------

  lemma GrantKeepsShape(h: History, joint: seq<set<NodeId>>, q: NodeId, v: LeaderId)
    requires Shape(h, joint) && q in h.votes && q in h.logs && Le(h.votes[q], v)
    requires v in h.camp && OptLe(LastId(h.logs[q]), LastId(h.camp[v]))
    ensures Shape(GrantVote(h, q, v), joint) && Grows(h, GrantVote(h, q, v))
  {
    var h' := GrantVote(h, q, v);
    assert NodeOk(h, q);
    LogOkGrows(h, h', h.logs[q]);
    ShapeKept(h, h', joint);
  }

  /** A new grant of a vote that has not won inherits what the granter's own log keeps. */
  lemma NewGrantKeeps(h: History, h': History, joint: seq<set<NodeId>>, q: NodeId, v: LeaderId, u: LeaderId, i: nat)
    requires Inv(h, joint) && Grows(h, h') && q in h.votes && q in h.logs && Le(h.votes[q], v)
    requires h'.elect.Keys == h.elect.Keys && v !in h.elect
    requires u in h.elect && i < |h.elect[u].log| && Proposed(h, u, i) && Acked(h, q, u, i)
    ensures u in h'.elect && GrantKeeps(h', Grant(q, v, h.logs[q]), u, i)
  {
    assert LogKeeps(h, q, u, i);
    HoldsGrows(h, h', h.logs[q], u, i);
    if !Holds(h, h.logs[q], u, i) {
      var w :| Le(w, h.votes[q]) && Missed(h, w, u, i);
      assert Lt(w, v);
      MissedGrows(h, h', w, u, i);
    }
  }

  lemma GrantedKeeps(h: History, joint: seq<set<NodeId>>, q: NodeId, v: LeaderId, g: Grant, u: LeaderId, i: nat)
    requires Inv(h, joint) && q in h.votes && q in h.logs && Le(h.votes[q], v)
    requires var h' := GrantVote(h, q, v);
             && Grows(h, h') && g in h'.grants && g.vote !in h'.elect
             && Proposed(h', u, i) && Lt(u, g.vote) && Acked(h', g.node, u, i)
    ensures GrantKeeps(GrantVote(h, q, v), g, u, i)
  {
    hide Shape, LogsKeep, WinsKeep, GrantKeeps, Proposed, Grows;
    var h' := GrantVote(h, q, v);
    assert Acked(h, g.node, u, i);
    AckedInside(h, joint, g.node, u, i);
    ProposedGrows(h, h', u, i);
    if g in h.grants {
      OldGrantKeeps(h, h', g, u, i);
    } else {
      NewGrantKeeps(h, h', joint, q, v, u, i);
    }
  }

  lemma GrantVoteKeeps(h: History, joint: seq<set<NodeId>>, q: NodeId, v: LeaderId)
    requires Inv(h, joint) && q in h.votes && q in h.logs && Le(h.votes[q], v)
    requires v in h.camp && OptLe(LastId(h.logs[q]), LastId(h.camp[v]))
    ensures Inv(GrantVote(h, q, v), joint) && Grows(h, GrantVote(h, q, v))
  {
    hide Shape, LogsKeep, Grows, GrantKeeps, WinnerKeeps;
    GrantKeepsShape(h, joint, q, v);
    var h' := GrantVote(h, q, v);
    LogsKeptByVotes(h, h', joint);
    forall g, u, i |
      g in h'.grants && g.vote !in h'.elect && Proposed(h', u, i) && Lt(u, g.vote) && Acked(h', g.node, u, i)
      ensures GrantKeeps(h', g, u, i)
    {
      GrantedKeeps(h, joint, q, v, g, u, i);
    }
    forall w | w in h'.elect ensures w in h'.camp && WinnerKeeps(h', w) {
      WinnerKept(h, h', joint, w);
    }
  }

  // ----- Win ----------------------------------------------------------------------

  lemma WinKeepsShape(h: History, joint: seq<set<NodeId>>, v: LeaderId, granters: set<NodeId>)
    requires Shape(h, joint) && v in h.camp && v !in h.elect && v != GENESIS
    requires IsQuorum(joint, granters) && forall q :: q in granters ==> HasGrant(h, q, v)
    ensures Shape(Win(h, v, granters), joint) && Grows(h, Win(h, v, granters))
  {
    var h' := Win(h, v, granters);
    assert CampOk(h, v);
    LogOkGrows(h, h', h.camp[v]);
    assert WinOk(h', joint, v) by {
      forall q | q in granters ensures HasGrant(h', q, v) {
        assert HasGrant(h, q, v);
      }
    }
    ShapeKept(h, h', joint);
  }

  /** The election restriction: a candidate whose last log id is not below that of a granter
      starts with every entry the granter's log holds, or an earlier leader already missed it. */
  lemma RestrictionPasses(h: History, joint: seq<set<NodeId>>, log: Log, v: LeaderId, u: LeaderId, i: nat)
    requires Shape(h, joint) && v in h.camp && LogOk(h, log) && OptLe(LastId(log), LastId(h.camp[v]))
    requires Proposed(h, u, i) && Lt(u, v) && Holds(h, log, u, i)
    ensures WinKeeps(h, v, u, i)
  {
    var base := h.camp[v];
    var m, j := |log| - 1, |base| - 1;
    assert CampOk(h, v) && LogOk(h, base);
    assert log[i] == u && Le(u, log[m]);
    assert FromLeader(h, log, m);
    var b := base[j];
    assert FromLeader(h, base, j);
    if b == log[m] {
      assert m <= j;
      assert forall k :: 0 <= k < i + 1 ==> base[k] == log[k];
    } else {
      assert Lt(u, b) && Lt(b, v);
      assert WinOk(h, joint, b);
      if Holds(h, h.camp[b], u, i) {
        assert |h.camp[b]| > i && h.elect[b].log[i] == u;
        assert j >= |h.camp[b]|;
        assert Holds(h, base, u, i);
      } else {
        assert Missed(h, b, u, i);
      }
    }
  }

  lemma NewWinKeeps(h: History, h': History, joint: seq<set<NodeId>>, v: LeaderId, q: NodeId, u: LeaderId, i: nat)
    requires Inv(h, joint) && v in h.camp && v !in h.elect && HasGrant(h, q, v)
    requires Grows(h, h') && Proposed(h, u, i) && Lt(u, v) && Acked(h, q, u, i)
    ensures u in h'.elect && v in h'.camp && WinKeeps(h', v, u, i)
  {
    var g :| g in h.grants && g.node == q && g.vote == v;
    assert GrantOk(h, g);
    assert GrantKeeps(h, g, u, i);
    if Holds(h, g.log, u, i) {
      RestrictionPasses(h, joint, g.log, v, u, i);
    }
    HoldsGrows(h, h', h.camp[v], u, i);
    if LostBefore(h, u, i, v) {
      LostBeforeGrows(h, h', u, i, v);
    }
  }

  lemma WinKeepsAll(h: History, joint: seq<set<NodeId>>, v: LeaderId, granters: set<NodeId>)
    requires Inv(h, joint) && v in h.camp && v !in h.elect && v != GENESIS
    requires IsQuorum(joint, granters) && forall q :: q in granters ==> HasGrant(h, q, v)
    ensures Inv(Win(h, v, granters), joint) && Grows(h, Win(h, v, granters))
  {
    WinKeepsShape(h, joint, v, granters);
    var h' := Win(h, v, granters);
    LogsKeptByVotes(h, h', joint);
    forall g, u, i |
      g in h'.grants && g.vote !in h'.elect && Proposed(h', u, i) && Lt(u, g.vote) && Acked(h', g.node, u, i)
      ensures GrantKeeps(h', g, u, i)
    {
      assert Acked(h, g.node, u, i);
      AckedInside(h, joint, g.node, u, i);
      ProposedGrows(h, h', u, i);
      assert GrantKeeps(h, g, u, i);
      HoldsGrows(h, h', g.log, u, i);
      if LostBefore(h, u, i, g.vote) {
        LostBeforeGrows(h, h', u, i, g.vote);
      }
    }
    forall w | w in h'.elect ensures w in h'.camp && WinnerKeeps(h', w) {
      if w == v {
        forall q, u, i |
          q in h'.elect[v].granters && Proposed(h', u, i) && Lt(u, v) && Acked(h', q, u, i)
          ensures WinKeeps(h', v, u, i)
        {
          assert Acked(h, q, u, i);
          AckedInside(h, joint, q, u, i);
          ProposedGrows(h, h', u, i);
          NewWinKeeps(h, h', joint, v, q, u, i);
        }
      } else {
        WinnerKept(h, h', joint, w);
      }
    }
  }

  // ----- Propose ------------------------------------------------------------------

  lemma ProposedLogOk(h: History, joint: seq<set<NodeId>>, n: NodeId, u: LeaderId, count: nat)
    requires Shape(h, joint) && n in h.votes && n in h.logs && u in h.elect
    requires h.votes[n] == u && h.logs[n] == h.elect[u].log
    ensures Grows(h, Propose(h, n, u, count)) && LogOk(Propose(h, n, u, count), h.elect[u].log + Repeat(u, count))
  {
    var h' := Propose(h, n, u, count);
    var log := h'.elect[u].log;
    assert WinOk(h, joint, u) && NodeOk(h, n);
    LogOkGrows(h, h', h.elect[u].log);
    forall p | 0 <= p < |log| ensures FromLeader(h', log, p) {
      if p < |h.elect[u].log| {
        assert FromLeader(h', h.elect[u].log, p);
      }
    }
  }

  lemma ProposeKeepsShape(h: History, joint: seq<set<NodeId>>, n: NodeId, u: LeaderId, count: nat)
    requires Shape(h, joint) && n in h.votes && n in h.logs && u in h.elect
    requires h.votes[n] == u && h.logs[n] == h.elect[u].log
    ensures Shape(Propose(h, n, u, count), joint) && Grows(h, Propose(h, n, u, count))
  {
    var h' := Propose(h, n, u, count);
    ProposedLogOk(h, joint, n, u, count);
    assert WinOk(h, joint, u);
    assert WinOk(h', joint, u) by {
      forall q | q in h'.elect[u].granters ensures HasGrant(h', q, u) {
        assert HasGrant(h, q, u);
      }
    }
    ShapeKept(h, h', joint);
  }

  lemma ProposeKeeps(h: History, joint: seq<set<NodeId>>, n: NodeId, u: LeaderId, count: nat)
    requires Inv(h, joint) && n in h.votes && n in h.logs && u in h.elect
    requires h.votes[n] == u && h.logs[n] == h.elect[u].log
    ensures Inv(Propose(h, n, u, count), joint) && Grows(h, Propose(h, n, u, count))
  {
    ProposeKeepsShape(h, joint, n, u, count);
    var h' := Propose(h, n, u, count);
    LogsKeptByVotes(h, h', joint);
    SameGrantsKeep(h, h', joint);
  }

  // ----- Overwrite ----------------------------------------------------------------

  /** What replacing `prev` by `log` under leader `u` must respect: positions where the previous log
      agreed with the leader's stay, and nothing but the previous log or the leader's log is put in. */
  ghost predicate Follows(h: History, prev: Log, log: Log, u: LeaderId)
    requires u in h.elect
  {
    && (forall m: nat :: Agree(prev, h.elect[u].log, m) ==> Agree(log, h.elect[u].log, m))
    && (Agree(log, prev, |log|) || Agree(log, h.elect[u].log, |log|))
  }

  lemma PrefixOk(h: History, log: Log, whole: Log)
    requires LogOk(h, whole) && Agree(log, whole, |log|)
    ensures LogOk(h, log)
  {
    forall p | 0 <= p < |log| ensures FromLeader(h, log, p) {
      assert FromLeader(h, whole, p);
    }
  }

  lemma OverwriteKeepsShape(h: History, joint: seq<set<NodeId>>, q: NodeId, log: Log, u: LeaderId)
    requires Shape(h, joint) && q in h.votes && q in h.logs && u in h.elect
    requires h.votes[q] == u && Follows(h, h.logs[q], log, u)
    ensures Shape(Overwrite(h, q, log), joint) && Grows(h, Overwrite(h, q, log))
  {
    var h' := Overwrite(h, q, log);
    assert NodeOk(h, q) && WinOk(h, joint, u) && CampOk(h, u);
    if Agree(log, h.logs[q], |log|) {
      PrefixOk(h, log, h.logs[q]);
    } else {
      PrefixOk(h, log, h.elect[u].log);
    }
    LogOkGrows(h, h', log);
    ShapeKept(h, h', joint);
  }

  lemma OverwriteKeeps(h: History, joint: seq<set<NodeId>>, q: NodeId, log: Log, u: LeaderId)
    requires Inv(h, joint) && q in h.votes && q in h.logs && u in h.elect
    requires h.votes[q] == u && Follows(h, h.logs[q], log, u)
    ensures Inv(Overwrite(h, q, log), joint) && Grows(h, Overwrite(h, q, log))
  {
    OverwriteKeepsShape(h, joint, q, log, u);
    var h' := Overwrite(h, q, log);
    forall m, w, i: nat | m in h'.votes && Proposed(h', w, i) && Acked(h', m, w, i)
      ensures LogKeeps(h', m, w, i)
    {
      assert Acked(h, m, w, i);
      AckedInside(h, joint, m, w, i);
      assert Proposed(h, w, i);
      assert LogKeeps(h, m, w, i);
      if m == q {
        if LostUpTo(h, w, i, u) {
          LostUpToGrows(h, h', w, i, u, u);
        } else {
          OverwriteHolds(h, joint, h.logs[q], log, u, w, i);
        }
      } else if LostUpTo(h, w, i, h.votes[m]) {
        LostUpToGrows(h, h', w, i, h.votes[m], h.votes[m]);
      }
    }
    SameGrantsKeep(h, h', joint);
  }

  lemma OverwriteHolds(h: History, joint: seq<set<NodeId>>, prev: Log, log: Log, u: LeaderId, w: LeaderId, i: nat)
    requires Shape(h, joint) && u in h.elect && Follows(h, prev, log, u)
    requires Proposed(h, w, i) && Le(w, u) && Holds(h, prev, w, i) && !LostUpTo(h, w, i, u)
    ensures Holds(h, log, w, i)
  {
    assert WinOk(h, joint, u);
    if w != u {
      assert !Missed(h, u, w, i);
      assert Holds(h, h.camp[u], w, i);
    }
    assert Agree(prev, h.elect[u].log, i + 1);
  }

  // ----- Acknowledge --------------------------------------------------------------

  lemma AddAckKeeps(h: History, joint: seq<set<NodeId>>, q: NodeId, u: LeaderId, i: nat)
    requires Inv(h, joint) && q in h.votes && q in h.logs && u in h.elect
    requires h.votes[q] == u && Agree(h.logs[q], h.elect[u].log, i + 1)
    ensures Inv(AddAck(h, q, u, i), joint) && Grows(h, AddAck(h, q, u, i))
  {
    AddAckKeepsShape(h, joint, q, u, i);
    var h' := AddAck(h, q, u, i);
    forall m, w, k: nat | m in h'.votes && Proposed(h', w, k) && Acked(h', m, w, k)
      ensures LogKeeps(h', m, w, k)
    {
      if Acked(h, m, w, k) {
        AckedInside(h, joint, m, w, k);
        assert Proposed(h, w, k) && LogKeeps(h, m, w, k);
        if LostUpTo(h, w, k, h.votes[m]) {
          LostUpToGrows(h, h', w, k, h.votes[m], h.votes[m]);
        }
      } else {
        assert m == q && w == u && k <= i;
      }
    }
    forall g, w, k |
      g in h'.grants && g.vote !in h'.elect && Proposed(h', w, k) && Lt(w, g.vote) && Acked(h', g.node, w, k)
      ensures GrantKeeps(h', g, w, k)
    {
      assert GrantOk(h, g);
      assert Acked(h, g.node, w, k);
      AckedInside(h, joint, g.node, w, k);
      assert Proposed(h, w, k) && GrantKeeps(h, g, w, k);
      if LostBefore(h, w, k, g.vote) {
        LostBeforeGrows(h, h', w, k, g.vote);
      }
    }
    forall v | v in h'.elect ensures v in h'.camp && WinnerKeeps(h', v) {
      AddAckWinner(h, joint, q, u, i, v);
    }
  }

  lemma AddAckKeepsShape(h: History, joint: seq<set<NodeId>>, q: NodeId, u: LeaderId, i: nat)
    requires Shape(h, joint) && q in h.votes && q in h.logs && u in h.elect
    requires h.votes[q] == u && Agree(h.logs[q], h.elect[u].log, i + 1)
    ensures Shape(AddAck(h, q, u, i), joint) && Grows(h, AddAck(h, q, u, i))
  {
    ShapeKept(h, AddAck(h, q, u, i), joint);
  }

  lemma AddAckWinner(h: History, joint: seq<set<NodeId>>, q: NodeId, u: LeaderId, i: nat, v: LeaderId)
    requires Inv(h, joint) && q in h.votes && u in h.elect && h.votes[q] == u && v in h.elect
    ensures v in h.camp && WinnerKeeps(AddAck(h, q, u, i), v)
  {
    var h' := AddAck(h, q, u, i);
    assert Grows(h, h');
    assert WinOk(h, joint, v) && WinnerKeeps(h, v);
    forall m, w, k |
      m in h'.elect[v].granters && Proposed(h', w, k) && Lt(w, v) && Acked(h', m, w, k)
      ensures WinKeeps(h', v, w, k)
    {
      assert HasGrant(h, m, v);
      var g :| g in h.grants && g.node == m && g.vote == v;
      assert GrantOk(h, g);
      assert Acked(h, m, w, k);
      AckedInside(h, joint, m, w, k);
      assert Proposed(h, w, k) && WinKeeps(h, v, w, k);
      if LostBefore(h, w, k, v) {
        LostBeforeGrows(h, h', w, k, v);
      }
    }
  }
}
