/** What a follower's log becomes when it takes a batch of entries. */
module FollowerLog {
  import opened Ids
  import opened EngineSpec

  /** The batch `entries` after `prev` comes from a leader that has what this node has committed. */
  ghost predicate FitsCommitted(n: Node, prev: Option<LogId>, entries: Log) {
    var start, committed := NextIndex(prev), NextIndex(n.committed);
    && committed <= |n.log|
    && (prev.Some? && prev.value.index < committed ==> n.log[prev.value.index] == prev.value.leader)
    && (forall k :: 0 <= k < |entries| && start + k < committed ==> n.log[start + k] == entries[k])
    && Sorted(n.log) && Sorted(entries)
    && (prev.Some? && |entries| > 0 ==> Le(prev.value.leader, entries[0]))
  }

  /** The part of the batch from the first entry the node lacks continues, in order, what is left of the log before
      it: what `do_append_entries` asserts. */
  ghost predicate Continues(n: Node, prev: Option<LogId>, entries: Log) {
    var at, since := NextIndex(prev) + FirstConflicting(n, NextIndex(prev), entries), FirstConflicting(n,
        NextIndex(prev), entries);
    since < |entries| ==>
      at <= |n.log| && Sorted(entries[since..]) && (at > 0 ==> Le(n.log[at - 1], entries[since]))
  }

  /** A batch that agrees with what is committed continues the log. */
  lemma FitsContinues(n: Node, prev: Option<LogId>, entries: Log)
    requires FitsCommitted(n, prev, entries) && (prev.Some? ==> HasLogId(n, prev.value))
    ensures Continues(n, prev, entries)
  {
    var since := FirstConflicting(n, NextIndex(prev), entries);
    if since < |entries| {
      KeptEntries(n, prev, entries, since);
      JoinInOrder(n, prev, entries, since);
    }
  }

  /** The entries a follower keeps of the batch are those it already has. */
  lemma KeptEntries(n: Node, prev: Option<LogId>, entries: Log, since: nat)
    requires FitsCommitted(n, prev, entries) && since <= |entries|
    requires prev.Some? ==> HasLogId(n, prev.value)
    requires forall k :: 0 <= k < since ==> HasLogId(n, LogId(entries[k], NextIndex(prev) + k))
    ensures NextIndex(prev) + since <= |n.log|
    ensures forall k :: 0 <= k < since ==> n.log[NextIndex(prev) + k] == entries[k]
    ensures prev.Some? ==> n.log[prev.value.index] == prev.value.leader
  {
    if since > 0 {
      assert HasLogId(n, LogId(entries[since - 1], NextIndex(prev) + (since - 1)));
    }
  }

  /** Truncating at the first entry it lacks and extending with the rest gives a log that agrees with
      the batch at every index of the batch, keeps leader ids in order, and leaves everything up to
      the commit, and up to the batch, unchanged. */
  lemma FollowerAppendStep(n: Node, prev: Option<LogId>, entries: Log)
    requires FitsCommitted(n, prev, entries) && (prev.Some? ==> HasLogId(n, prev.value))
    ensures var start, log := NextIndex(prev), TakeEntries(n, NextIndex(prev), entries);
            && start + |entries| <= |log|
            && (forall k :: 0 <= k < |entries| ==> log[start + k] == entries[k])
            && (forall i :: 0 <= i < start ==> log[i] == n.log[i])
            && NextIndex(n.committed) <= |log|
            && (forall i :: 0 <= i < NextIndex(n.committed) ==> log[i] == n.log[i])
            && Sorted(log)
  {
    var start := NextIndex(prev);
    var since := FirstConflicting(n, start, entries);
    KeptEntries(n, prev, entries, since);
    if since < |entries| {
      assert !HasLogId(n, LogId(entries[since], start + since));
      ReplacedStep(n, prev, entries, since);
    }
  }

  lemma ReplacedStep(n: Node, prev: Option<LogId>, entries: Log, since: nat)
    requires FitsCommitted(n, prev, entries) && since < |entries| && NextIndex(prev) + since <= |n.log|
    requires forall k :: 0 <= k < since ==> n.log[NextIndex(prev) + k] == entries[k]
    requires prev.Some? ==> n.log[prev.value.index] == prev.value.leader
    requires NextIndex(n.committed) <= NextIndex(prev) + since
    ensures var start, log := NextIndex(prev), Truncate(n.log, NextIndex(prev) + since) + entries[since..];
            && |log| == start + |entries|
            && (forall k :: 0 <= k < |entries| ==> log[start + k] == entries[k])
            && (forall i :: 0 <= i < start + since ==> log[i] == n.log[i])
            && Sorted(log)
  {
    hide Sorted, FitsCommitted;
    var start := NextIndex(prev);
    Spliced(n.log, start, entries, since);
    JoinInOrder(n, prev, entries, since);
    SortedJoin(n.log[..start + since], entries[since..]);
  }

  lemma Spliced(log: Log, start: nat, entries: Log, since: nat)
    requires start + since <= |log| && since <= |entries|
    requires forall k :: 0 <= k < since ==> log[start + k] == entries[k]
    ensures var r := Truncate(log, start + since) + entries[since..];
            && r == log[..start + since] + entries[since..]
            && |r| == start + |entries|
            && (forall k :: 0 <= k < |entries| ==> r[start + k] == entries[k])
            && (forall i :: 0 <= i < start + since ==> r[i] == log[i])
  {
    assert Truncate(log, start + since) == log[..start + since];
  }

  lemma JoinInOrder(n: Node, prev: Option<LogId>, entries: Log, since: nat)
    requires FitsCommitted(n, prev, entries) && since < |entries| && NextIndex(prev) + since <= |n.log|
    requires forall k :: 0 <= k < since ==> n.log[NextIndex(prev) + k] == entries[k]
    requires prev.Some? ==> n.log[prev.value.index] == prev.value.leader
    ensures Sorted(n.log[..NextIndex(prev) + since]) && Sorted(entries[since..])
    ensures NextIndex(prev) + since > 0 ==> Le(n.log[NextIndex(prev) + since - 1], entries[since])
  {
    if since > 0 {
      assert n.log[NextIndex(prev) + (since - 1)] == entries[since - 1];
    }
  }

  lemma SortedJoin(a: Log, b: Log)
    requires Sorted(a) && Sorted(b) && (|a| > 0 && |b| > 0 ==> Le(a[|a| - 1], b[0]))
    ensures Sorted(a + b)
  {
    var c := a + b;
    forall i, j | 0 <= i <= j < |c| ensures Le(c[i], c[j]) {
      if i < |a| <= j {
        assert Le(a[i], a[|a| - 1]) && Le(b[0], b[j - |a|]);
      }
    }
  }
}
