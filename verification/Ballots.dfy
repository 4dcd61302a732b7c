/** The protocol reduced to what its safety argument needs: votes, logs, and the history of
    candidacies, grants, wins and acknowledgements. `Cluster` maps every step of the full
    model onto the transitions below. */
module Ballots {
  import opened Ids
  import opened Quorum

  /** `log` is the log of an established leader: its candidate's log followed by what it proposed. */
  datatype Election = Election(granters: set<NodeId>, log: Log)

  /** `node` granted `vote` while its own log was `log`. */
  datatype Grant = Grant(node: NodeId, vote: LeaderId, log: Log)

  /** `node`, following `leader`, has acknowledged the entries of that leader up to `index`. */
  datatype Ack = Ack(node: NodeId, leader: LeaderId, index: nat)

  datatype History = History(
    votes: map<NodeId, LeaderId>,
    logs: map<NodeId, Log>,
    camp: map<LeaderId, Log>,
    elect: map<LeaderId, Election>,
    grants: set<Grant>,
    acks: set<Ack>)

  // ----- Transitions --------------------------------------------------------------

  /** `q` moves to a vote not below its own. */
  function Raise(h: History, q: NodeId, v: LeaderId): History {
    h.(votes := h.votes[q := v])
  }

  /** `q` starts a candidacy for `v` with its present log. */
  function Campaign(h: History, q: NodeId, v: LeaderId): History {
    if q !in h.logs then h else
    h.(votes := h.votes[q := v], camp := h.camp[v := h.logs[q]])
  }

  /** `q` grants `v` with its present log. */
  function GrantVote(h: History, q: NodeId, v: LeaderId): History {
    if q !in h.logs then h else
    h.(votes := h.votes[q := v], grants := h.grants + {Grant(q, v, h.logs[q])})
  }

  /** `v` wins with the votes of `granters`. */
  function Win(h: History, v: LeaderId, granters: set<NodeId>): History {
    if v !in h.camp then h else
    h.(elect := h.elect[v := Election(granters, h.camp[v])])
  }

  /** Leader `u` on node `n` appends `count` entries of its own. */
  function Propose(h: History, n: NodeId, u: LeaderId, count: nat): History {
    if u !in h.elect then h else
    var log := h.elect[u].log + Repeat(u, count);
    h.(logs := h.logs[n := log], elect := h.elect[u := Election(h.elect[u].granters, log)])
  }

  /** `q` replaces its log while following a leader. */
  function Overwrite(h: History, q: NodeId, log: Log): History {
    h.(logs := h.logs[q := log])
  }

  function AddAck(h: History, q: NodeId, u: LeaderId, i: nat): History {
    h.(acks := h.acks + {Ack(q, u, i)})
  }

  // ----- Invariants ---------------------------------------------------------------

  /** Leader ids never decrease along `log`, and every prefix of `log` that ends in an entry
      of leader `u` is a prefix of the log of `u`. */
  ghost predicate LogOk(h: History, log: Log) {
    && Sorted(log)
    && forall p :: 0 <= p < |log| ==> FromLeader(h, log, p)
  }

  ghost predicate FromLeader(h: History, log: Log, p: nat)
    requires p < |log|
  {
    log[p] in h.elect && Agree(log, h.elect[log[p]].log, p + 1)
  }

  ghost predicate NodeOk(h: History, q: NodeId)
    requires q in h.votes && q in h.logs
  {
    && LogOk(h, h.logs[q])
    && forall p :: 0 <= p < |h.logs[q]| ==> Le(h.logs[q][p], h.votes[q])
  }

  ghost predicate NodesOk(h: History) {
    && h.votes.Keys == h.logs.Keys
    && forall q :: q in h.votes ==> NodeOk(h, q)
  }

  /** A candidacy is older than the present vote of the node it belongs to. */
  ghost predicate CampOk(h: History, v: LeaderId)
    requires v in h.camp
  {
    && LogOk(h, h.camp[v])
    && (forall p :: 0 <= p < |h.camp[v]| ==> Lt(h.camp[v][p], v))
    && (v == GENESIS || (v.node in h.votes && Le(v, h.votes[v.node])))
  }

  ghost predicate CampsOk(h: History) {
    forall v :: v in h.camp ==> CampOk(h, v)
  }

  ghost predicate HasGrant(h: History, q: NodeId, v: LeaderId) {
    exists g :: g in h.grants && g.node == q && g.vote == v
  }

  ghost predicate WinOk(h: History, joint: seq<set<NodeId>>, u: LeaderId)
    requires u in h.elect
  {
    && u in h.camp
    && LogOk(h, h.elect[u].log)
    && Agree(h.camp[u], h.elect[u].log, |h.camp[u]|)
    && (forall p :: |h.camp[u]| <= p < |h.elect[u].log| ==> h.elect[u].log[p] == u)
    && (u == GENESIS ==> h.elect[u].granters == {})
    && (u != GENESIS ==> IsQuorum(joint, h.elect[u].granters))
    && forall q :: q in h.elect[u].granters ==> HasGrant(h, q, u)
  }

  ghost predicate WinsOk(h: History, joint: seq<set<NodeId>>) {
    forall u :: u in h.elect ==> WinOk(h, joint, u)
  }

  ghost predicate GrantOk(h: History, g: Grant) {
    && g.node in h.votes
    && g.vote in h.camp
    && Le(g.vote, h.votes[g.node])
    && LogOk(h, g.log)
    && OptLe(LastId(g.log), LastId(h.camp[g.vote]))
  }

  ghost predicate GrantsOk(h: History) {
    forall g :: g in h.grants ==> GrantOk(h, g)
  }

  ghost predicate AckOk(h: History, a: Ack) {
    && a.node in h.votes
    && a.leader in h.elect
    && a.index < |h.elect[a.leader].log|
    && Le(a.leader, h.votes[a.node])
  }

  ghost predicate AcksOk(h: History) {
    forall a :: a in h.acks ==> AckOk(h, a)
  }

  ghost predicate Shape(h: History, joint: seq<set<NodeId>>) {
    && NodesOk(h)
    && CampsOk(h)
    && WinsOk(h, joint)
    && GrantsOk(h)
    && AcksOk(h)
  }

  /** Leader `u` has put an entry of its own at index `i`. */
  ghost predicate Proposed(h: History, u: LeaderId, i: nat) {
    u in h.elect && i < |h.elect[u].log| && h.elect[u].log[i] == u
  }

  /** `log` holds the entry of `u` at `i` and everything before it. */
  ghost predicate Holds(h: History, log: Log, u: LeaderId, i: nat)
    requires u in h.elect
  {
    Agree(log, h.elect[u].log, i + 1)
  }

  ghost predicate Acked(h: History, q: NodeId, u: LeaderId, i: nat) {
    exists a :: a in h.acks && a.node == q && a.leader == u && i <= a.index
  }

  /** Leader `w`, later than `u`, was elected without the entry of `u` at `i`. */
  ghost predicate Missed(h: History, w: LeaderId, u: LeaderId, i: nat)
    requires u in h.elect
  {
    w in h.elect && w in h.camp && Lt(u, w) && !Holds(h, h.camp[w], u, i)
  }

  ghost predicate LostBefore(h: History, u: LeaderId, i: nat, v: LeaderId)
    requires u in h.elect
  {
    exists w :: Lt(w, v) && Missed(h, w, u, i)
  }

  ghost predicate LostUpTo(h: History, u: LeaderId, i: nat, v: LeaderId)
    requires u in h.elect
  {
    exists w :: Le(w, v) && Missed(h, w, u, i)
  }

  /** What a node acknowledged is still in its log, unless some leader it may have followed
      since was elected without it. */
  ghost predicate LogKeeps(h: History, q: NodeId, u: LeaderId, i: nat)
    requires q in h.votes && q in h.logs && u in h.elect
  {
    Holds(h, h.logs[q], u, i) || LostUpTo(h, u, i, h.votes[q])
  }

  ghost predicate LogsKeep(h: History)
    requires NodesOk(h)
  {
    forall q, u, i :: q in h.votes && Proposed(h, u, i) && Acked(h, q, u, i) ==> LogKeeps(h, q, u, i)
  }

  /** The same for the log a node had when it granted a vote that has not won yet. */
  ghost predicate GrantKeeps(h: History, g: Grant, u: LeaderId, i: nat)
    requires u in h.elect
  {
    Holds(h, g.log, u, i) || LostBefore(h, u, i, g.vote)
  }

  ghost predicate GrantsKeep(h: History) {
    forall g, u, i ::
      g in h.grants && g.vote !in h.elect && Proposed(h, u, i) && Lt(u, g.vote) && Acked(h, g.node, u, i)
      ==> GrantKeeps(h, g, u, i)
  }

  /** The same for the log a leader started from, as seen by each of its granters. */
  ghost predicate WinKeeps(h: History, v: LeaderId, u: LeaderId, i: nat)
    requires u in h.elect && v in h.camp
  {
    Holds(h, h.camp[v], u, i) || LostBefore(h, u, i, v)
  }

  ghost predicate WinnerKeeps(h: History, v: LeaderId)
    requires v in h.elect && v in h.camp
  {
    forall q, u, i ::
      q in h.elect[v].granters && Proposed(h, u, i) && Lt(u, v) && Acked(h, q, u, i)
      ==> WinKeeps(h, v, u, i)
  }

  ghost predicate WinsKeep(h: History) {
    forall v :: v in h.elect ==> v in h.camp && WinnerKeeps(h, v)
  }

  ghost predicate Inv(h: History, joint: seq<set<NodeId>>) {
    && Shape(h, joint)
    && LogsKeep(h)
    && GrantsKeep(h)
    && WinsKeep(h)
  }

  // ----- Leader completeness ------------------------------------------------------

  ghost predicate QuorumAcked(h: History, joint: seq<set<NodeId>>, u: LeaderId, i: nat) {
    exists ids: set<NodeId> :: IsQuorum(joint, ids) && AllAcked(h, ids, u, i)
  }

  ghost predicate AllAcked(h: History, ids: set<NodeId>, u: LeaderId, i: nat) {
    forall q :: q in ids ==> Acked(h, q, u, i)
  }

  /** Once a quorum has acknowledged an entry of `u` under `u`, every leader after `u` starts
      with it: the proof follows the leader ids down to a smallest violating one. */
  lemma {:induction false} LeaderCompleteness(h: History, joint: seq<set<NodeId>>, u: LeaderId, i: nat, v: LeaderId)
    requires |joint| > 0 && Inv(h, joint)
    requires Proposed(h, u, i) && QuorumAcked(h, joint, u, i)
    requires v in h.elect && Lt(u, v)
    ensures v in h.camp && Holds(h, h.camp[v], u, i) && Holds(h, h.elect[v].log, u, i)
    decreases v.term, v.node
  {
    var ids: set<NodeId> :| IsQuorum(joint, ids) && AllAcked(h, ids, u, i);
    assert WinOk(h, joint, v);
    assert v != GENESIS;
    var q := SharedChildIntersects(joint, joint, joint[0], ids, h.elect[v].granters);
    assert WinKeeps(h, v, u, i);
    if !Holds(h, h.camp[v], u, i) {
      var w :| Lt(w, v) && Missed(h, w, u, i);
      LeaderCompleteness(h, joint, u, i, w);
    }
  }
}
