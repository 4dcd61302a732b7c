/** Identifiers of the protocol and their orders: leader ids, log ids and votes.

    Leader ids are the totally ordered `(term, node)` pairs of `leader_id_adv`, the
    default of the type configuration. */
module Ids {

  datatype Option<+T> = None | Some(value: T)

  type NodeId = nat

  datatype LeaderId = LeaderId(term: nat, node: NodeId)

  predicate Lt(a: LeaderId, b: LeaderId) {
    a.term < b.term || (a.term == b.term && a.node < b.node)
  }

  predicate Le(a: LeaderId, b: LeaderId) {
    a == b || Lt(a, b)
  }

  /** The id of the log entry `initialize()` writes: the default leader id at index 0. */
  const GENESIS := LeaderId(0, 0)

  datatype LogId = LogId(leader: LeaderId, index: nat)

  predicate LogIdLt(a: LogId, b: LogId) {
    Lt(a.leader, b.leader) || (a.leader == b.leader && a.index < b.index)
  }

  predicate LogIdLe(a: LogId, b: LogId) {
    a == b || LogIdLt(a, b)
  }

  /** `Option<LogId>` comparison: `None` is below every log id. */
  predicate OptLe(a: Option<LogId>, b: Option<LogId>) {
    a.None? || (b.Some? && LogIdLe(a.value, b.value))
  }

  function OptMin(a: Option<LogId>, b: Option<LogId>): Option<LogId> {
    if OptLe(a, b) then a else b
  }

  function OptMax(a: Option<LogId>, b: Option<LogId>): Option<LogId> {
    if OptLe(a, b) then b else a
  }

  function NextIndex(a: Option<LogId>): nat {
    if a.None? then 0 else a.value.index + 1
  }

  datatype Vote = Vote(leader: LeaderId, committed: bool)

  /** The order of `RefVote`: the leader id first, then uncommitted below committed. */
  predicate VoteLt(a: Vote, b: Vote) {
    Lt(a.leader, b.leader) || (a.leader == b.leader && !a.committed && b.committed)
  }

  predicate VoteLe(a: Vote, b: Vote) {
    a == b || VoteLt(a, b)
  }

  /** A whole log as the leader id of every entry, by index. */
  type Log = seq<LeaderId>

  function LastId(log: Log): Option<LogId> {
    if |log| == 0 then None else Some(LogId(log[|log| - 1], |log| - 1))
  }

  /** `a` and `b` hold the same entries below index `n`, and both reach that far. */
  ghost predicate Agree(a: Log, b: Log, n: nat) {
    && n <= |a|
    && n <= |b|
    && forall k :: 0 <= k < n ==> a[k] == b[k]
  }

  ghost predicate Sorted(log: Log) {
    forall i, j :: 0 <= i <= j < |log| ==> Le(log[i], log[j])
  }

  function Repeat(u: LeaderId, n: nat): (r: Log)
    ensures |r| == n
    ensures forall k :: 0 <= k < n ==> r[k] == u
  {
    seq(n, _ => u)
  }
}
