/** Rebuilding the compressed log-id index from the log at startup, by a binary search that keeps its
    pending ranges on a stack. */
module LogIdLoader {
  import opened Ids
  import opened LogIdKeys

  /** A range of the log between two of its ids. */
  type Range = (LogId, LogId)

  /** Steps a range can still take. */
  function Cost(r: Range): nat {
    if r.1.index <= r.0.index then 1 else 2 * (r.1.index - r.0.index) - 1
  }

  function StackCost(stack: seq<Range>): nat {
    if |stack| == 0 then 0 else StackCost(stack[..|stack| - 1]) + Cost(stack[|stack| - 1])
  }

  /** `id` is the id of an entry of the log. */
  ghost predicate InRange(first: nat, ids: Log, id: LogId) {
    first <= id.index < first + |ids| && ids[id.index - first] == id.leader
  }

  /** Pending ranges from the bottom of the stack up: each ends where the leader of the next one
      below begins, the lowest at the end of the log. */
  ghost predicate Chained(first: nat, ids: Log, stack: seq<Range>, last: LogId) {
    forall i :: 0 <= i < |stack| ==> Link(first, ids, stack, i, last)
  }

  ghost predicate Link(first: nat, ids: Log, stack: seq<Range>, i: nat, last: LogId)
    requires i < |stack|
  {
    && InRange(first, ids, stack[i].0) && InRange(first, ids, stack[i].1)
    && stack[i].0.index <= stack[i].1.index
    && Meets(stack[i].1, if i == 0 then last else stack[i - 1].0)
  }

  ghost predicate Meets(a: LogId, b: LogId) {
    a.leader == b.leader && a.index <= b.index
  }

  /** `res` has the beginnings of all leaders up to `id`, except possibly that of `id` itself when it
      is one. */
  ghost predicate LoadedUpTo(first: nat, ids: Log, res: seq<LogId>, id: LogId)
    requires InRange(first, ids, id)
  {
    var s := Starts(first, ids, id.index + 1 - first);
    res == s || (|s| > 0 && s[|s| - 1] == id && res == s[..|s| - 1])
  }

  lemma {:induction false} SameStarts(first: nat, ids: Log, a: nat, b: nat)
    requires a <= b < |ids| && forall k :: a <= k <= b ==> ids[k] == ids[a]
    ensures Starts(first, ids, a + 1) == Starts(first, ids, b + 1)
  {
    if a < b {
      SameStarts(first, ids, a, b - 1);
    }
  }

  lemma SameLeader(ids: Log, a: nat, b: nat)
    requires Sorted(ids) && a <= b < |ids| && ids[a] == ids[b]
    ensures forall k :: a <= k <= b ==> ids[k] == ids[a]
  {
    forall k | a <= k <= b ensures ids[k] == ids[a] {
      assert Le(ids[a], ids[k]) && Le(ids[k], ids[b]);
    }
  }

  /** The same beginnings are known at the end of a run of one leader as at its start. */
  lemma LoadedMoves(first: nat, ids: Log, res: seq<LogId>, a: LogId, b: LogId)
    requires Sorted(ids) && InRange(first, ids, a) && InRange(first, ids, b) && Meets(a, b)
    requires res == Starts(first, ids, a.index + 1 - first)
    ensures res == Starts(first, ids, b.index + 1 - first)
  {
    SameLeader(ids, a.index - first, b.index - first);
    SameStarts(first, ids, a.index - first, b.index - first);
  }

  function LastLeader(res: seq<LogId>): Option<LeaderId> {
    if |res| == 0 then None else Some(res[|res| - 1].leader)
  }

  /** `Option` comparison of leader ids: `None` is least. */
  predicate OptLt(a: Option<LeaderId>, b: LeaderId) {
    a.None? || Lt(a.value, b)
  }

  function PushNew(res: seq<LogId>, id: LogId): seq<LogId> {
    if OptLt(LastLeader(res), id.leader) then res + [id] else res
  }

  /** Pushing the first id of a range when its leader is new completes what is known up to it. */
  lemma PushNewLoads(first: nat, ids: Log, res: seq<LogId>, id: LogId)
    requires Sorted(ids) && InRange(first, ids, id) && LoadedUpTo(first, ids, res, id)
    ensures PushNew(res, id) == Starts(first, ids, id.index + 1 - first)
  {
    var n := id.index + 1 - first;
    var s := Starts(first, ids, n);
    StartsAre(first, ids, n);
    if res != s {
      assert s == res + [id];
      if |res| > 0 {
        assert Lt(s[|s| - 2].leader, s[|s| - 1].leader);
      }
    }
  }

  /** Two adjacent ids of different leaders: the second begins its leader. */
  lemma AdjacentLoads(first: nat, ids: Log, a: LogId, b: LogId)
    requires InRange(first, ids, a) && InRange(first, ids, b) && a.index + 1 == b.index && a.leader != b.leader
    ensures Starts(first, ids, b.index + 1 - first) == Starts(first, ids, a.index + 1 - first) + [b]
  {
  }

  // ----- The steps of the search --------------------------------------------------

  /** What the search knows with `stack` pending: the beginnings before the topmost range. */
  ghost predicate State(first: nat, ids: Log, res: seq<LogId>, stack: seq<Range>, last: LogId) {
    && Sorted(ids) && |ids| > 0 && last == LogId(ids[|ids| - 1], first + |ids| - 1)
    && Chained(first, ids, stack, last)
    && (if |stack| == 0 then res == Starts(first, ids, |ids|)
        else Link(first, ids, stack, |stack| - 1, last) && LoadedUpTo(first, ids, res, stack[|stack| - 1].0))
  }

  lemma TopOf(first: nat, ids: Log, res: seq<LogId>, stack: seq<Range>, a: LogId, b: LogId, last: LogId) returns (next: LogId)
    requires State(first, ids, res, stack + [(a, b)], last)
    ensures InRange(first, ids, a) && InRange(first, ids, b) && a.index <= b.index && LoadedUpTo(first, ids, res, a)
    ensures Chained(first, ids, stack, last)
    ensures next == (if |stack| == 0 then last else stack[|stack| - 1].0) && InRange(first, ids, next) && Meets(b, next)
  {
    var all := stack + [(a, b)];
    assert all[|stack|] == (a, b) && |all| - 1 == |stack|;
    assert Link(first, ids, all, |all| - 1, last);
    forall i | 0 <= i < |stack| ensures Link(first, ids, stack, i, last)
    {
      assert Link(first, ids, all, i, last);
      assert all[i] == stack[i];
      assert i > 0 ==> all[i - 1] == stack[i - 1];
    }
    assert Link(first, ids, all, |stack|, last);
    next := if |stack| == 0 then last else stack[|stack| - 1].0;
    if |stack| > 0 {
      assert all[|stack| - 1] == stack[|stack| - 1];
      assert Link(first, ids, stack, |stack| - 1, last);
      assert InRange(first, ids, next);
    } else {
      assert InRange(first, ids, last);
    }
  }

  /** When all beginnings up to `b` are known, the range is done. */
  lemma Done(first: nat, ids: Log, res: seq<LogId>, stack: seq<Range>, last: LogId, b: LogId, next: LogId)
    requires Sorted(ids) && |ids| > 0 && last == LogId(ids[|ids| - 1], first + |ids| - 1)
    requires Chained(first, ids, stack, last) && InRange(first, ids, b) && InRange(first, ids, next) && Meets(b, next)
    requires next == (if |stack| == 0 then last else stack[|stack| - 1].0)
    requires res == Starts(first, ids, b.index + 1 - first)
    ensures State(first, ids, res, stack, last)
  {
    LoadedMoves(first, ids, res, b, next);
  }

  lemma Push(first: nat, ids: Log, res: seq<LogId>, stack: seq<Range>, last: LogId, a: LogId, b: LogId, next: LogId)
    requires Sorted(ids) && |ids| > 0 && last == LogId(ids[|ids| - 1], first + |ids| - 1)
    requires Chained(first, ids, stack, last)
    requires InRange(first, ids, a) && InRange(first, ids, b) && a.index <= b.index && Meets(b, next)
    requires next == (if |stack| == 0 then last else stack[|stack| - 1].0) && LoadedUpTo(first, ids, res, a)
    ensures State(first, ids, res, stack + [(a, b)], last)
  {
    var all := stack + [(a, b)];
    forall i | 0 <= i < |all| ensures Link(first, ids, all, i, last)
    {
      assert i < |stack| ==> all[i] == stack[i] && Link(first, ids, stack, i, last);
      assert i > 0 ==> all[i - 1] == stack[i - 1];
    }
  }

  /** One leader from `a` to `b`. */
  lemma StepSame(first: nat, ids: Log, res: seq<LogId>, stack: seq<Range>, a: LogId, b: LogId, last: LogId)
    requires State(first, ids, res, stack + [(a, b)], last) && a.leader == b.leader
    ensures State(first, ids, PushNew(res, a), stack, last)
  {
    var next := TopOf(first, ids, res, stack, a, b, last);
    PushNewLoads(first, ids, res, a);
    LoadedMoves(first, ids, PushNew(res, a), a, b);
    Done(first, ids, PushNew(res, a), stack, last, b, next);
  }

  lemma StepAdjacent(first: nat, ids: Log, res: seq<LogId>, stack: seq<Range>, a: LogId, b: LogId, last: LogId)
    requires State(first, ids, res, stack + [(a, b)], last) && a.leader != b.leader && a.index + 1 == b.index
    ensures State(first, ids, PushNew(res, a) + [b], stack, last)
  {
    var next := TopOf(first, ids, res, stack, a, b, last);
    PushNewLoads(first, ids, res, a);
    AdjacentLoads(first, ids, a, b);
    Done(first, ids, PushNew(res, a) + [b], stack, last, b, next);
  }

  /** The leader changes after `mid`. */
  lemma StepUpper(first: nat, ids: Log, res: seq<LogId>, stack: seq<Range>, a: LogId, b: LogId, last: LogId, mid: LogId)
    requires State(first, ids, res, stack + [(a, b)], last)
    requires InRange(first, ids, mid) && a.index <= mid.index <= b.index && a.leader == mid.leader
    ensures State(first, ids, PushNew(res, a), stack + [(mid, b)], last)
  {
    var next := TopOf(first, ids, res, stack, a, b, last);
    PushNewLoads(first, ids, res, a);
    LoadedMoves(first, ids, PushNew(res, a), a, mid);
    Push(first, ids, PushNew(res, a), stack, last, mid, b, next);
  }

  /** The leader changes up to `mid`. */
  lemma StepLower(first: nat, ids: Log, res: seq<LogId>, stack: seq<Range>, a: LogId, b: LogId, last: LogId, mid: LogId)
    requires State(first, ids, res, stack + [(a, b)], last)
    requires InRange(first, ids, mid) && a.index <= mid.index <= b.index && mid.leader == b.leader
    ensures State(first, ids, res, stack + [(a, mid)], last)
  {
    var next := TopOf(first, ids, res, stack, a, b, last);
    Push(first, ids, res, stack, last, a, mid, next);
  }

  /** The leader changes on both sides. */
  lemma StepBoth(first: nat, ids: Log, res: seq<LogId>, stack: seq<Range>, a: LogId, b: LogId, last: LogId, mid: LogId)
    requires State(first, ids, res, stack + [(a, b)], last)
    requires InRange(first, ids, mid) && a.index <= mid.index <= b.index
    ensures State(first, ids, res, stack + [(mid, b)] + [(a, mid)], last)
  {
    var next := TopOf(first, ids, res, stack, a, b, last);
    var lower := stack + [(mid, b)];
    assert Chained(first, ids, lower, last) by {
      forall i | 0 <= i < |lower| ensures Link(first, ids, lower, i, last)
      {
        assert i < |stack| ==> lower[i] == stack[i] && Link(first, ids, stack, i, last);
        assert i > 0 ==> lower[i - 1] == stack[i - 1];
      }
    }
    Push(first, ids, res, lower, last, a, mid, mid);
  }

  lemma Begin(first: nat, ids: Log)
    requires Sorted(ids) && |ids| > 0
    ensures var last := LogId(ids[|ids| - 1], first + |ids| - 1);
            State(first, ids, [], [(LogId(ids[0], first), last)], last)
  {
    var s := Starts(first, ids, 1);
    assert Starts(first, ids, 0) == [];
    assert s == [LogId(ids[0], first)];
    assert s[..|s| - 1] == [];
  }

  /** At the end all beginnings are known; the last id is one of them or comes after them. */
  lemma Finish(first: nat, ids: Log, res: seq<LogId>, last: LogId)
    requires State(first, ids, res, [], last)
    ensures Canon(first, ids) == if |res| == 0 || res[|res| - 1] != last then res + [last] else res
  {
    StartsEnd(first, ids);
  }

  lemma PopCost(stack: seq<Range>, r: Range)
    ensures StackCost(stack + [r]) == StackCost(stack) + Cost(r)
  {
    assert (stack + [r])[..|stack|] == stack;
  }

  /** The search gives the first id, every change of leader and the last id. */
  method GetKeyLogIds(first: nat, ids: Log) returns (res: seq<LogId>)
    requires Sorted(ids) && |ids| > 0
    ensures res == Canon(first, ids)
  {
    hide State, Starts, Canon, Keys;
    var last := LogId(ids[|ids| - 1], first + |ids| - 1);
    res := [];
    var stack: seq<Range> := [(LogId(ids[0], first), last)];
    Begin(first, ids);
    while |stack| > 0
      invariant State(first, ids, res, stack, last)
      decreases StackCost(stack)
    {
      var (a, b) := stack[|stack| - 1];
      assert stack == stack[..|stack| - 1] + [(a, b)];
      stack := stack[..|stack| - 1];
      PopCost(stack, (a, b));
      ghost var next := TopOf(first, ids, res, stack, a, b, last);
      if a.leader == b.leader {
        StepSame(first, ids, res, stack, a, b, last);
        if OptLt(LastLeader(res), a.leader) {
          res := res + [a];
        }
        continue;
      }
      if a.index + 1 == b.index {
        StepAdjacent(first, ids, res, stack, a, b, last);
        if OptLt(LastLeader(res), a.leader) {
          res := res + [a];
        }
        res := res + [b];
        continue;
      }
      assert a.index != b.index;
      var midIndex := (a.index + b.index) / 2;
      var mid := LogId(ids[midIndex - first], midIndex);
      PopCost(stack, (mid, b));
      if a.leader == mid.leader {
        StepUpper(first, ids, res, stack, a, b, last, mid);
        if OptLt(LastLeader(res), a.leader) {
          res := res + [a];
        }
        stack := stack + [(mid, b)];
      } else if mid.leader == b.leader {
        StepLower(first, ids, res, stack, a, b, last, mid);
        PopCost(stack, (a, mid));
        stack := stack + [(a, mid)];
      } else {
        StepBoth(first, ids, res, stack, a, b, last, mid);
        PopCost(stack + [(mid, b)], (a, mid));
        stack := stack + [(mid, b)];
        stack := stack + [(a, mid)];
      }
    }
    assert stack == [];
    Finish(first, ids, res, last);
    if |res| == 0 || res[|res| - 1] != last {
      res := res + [last];
    }
  }

  /** The last id is the last beginning exactly when its leader differs from the one before it. */
  lemma StartsEnd(first: nat, ids: Log)
    requires Sorted(ids) && |ids| > 0
    ensures var s, n := Starts(first, ids, |ids|), |ids|;
            |s| > 0 && (s[|s| - 1] == LogId(ids[n - 1], first + n - 1) <==> n == 1 || ids[n - 1] != ids[n - 2])
  {
    StartsAre(first, ids, |ids|);
    StartsAre(first, ids, |ids| - 1);
  }

  /** Loading with the last purged id in front: `purged` takes the place of the first key when they
      have the same leader and the log goes on, and is put before it otherwise. */
  method LoadKeyLogIds(purged: Option<LogId>, ids: Log) returns (keys: seq<LogId>)
    requires var all := (if purged.Some? then [purged.value.leader] else []) + ids; Sorted(all)
    ensures Keys(keys, if purged.Some? then purged.value.index else 0, (if purged.Some? then [purged.value.leader] else []) + ids)
  {
    var first := NextIndex(purged);
    ghost var all := (if purged.Some? then [purged.value.leader] else []) + ids;
    if |ids| == 0 {
      keys := if purged.Some? then [purged.value] else [];
      return;
    }
    assert Sorted(ids) by {
      forall i, j | 0 <= i <= j < |ids| ensures Le(ids[i], ids[j]) {
        var o := if purged.Some? then 1 else 0;
        assert all[o + i] == ids[i] && all[o + j] == ids[j];
      }
    }
    keys := GetKeyLogIds(first, ids);
    CanonIsKeys(first, ids);
    if purged.Some? {
      assert Le(all[0], all[1]);
      PurgedInFront(keys, purged.value, ids);
      if purged.value.leader == keys[0].leader && |keys| >= 2 {
        keys := keys[0 := purged.value];
      } else {
        keys := [purged.value] + keys;
      }
    } else {
      assert all == ids;
    }
  }

  lemma PurgedInFront(keys: seq<LogId>, purged: LogId, ids: Log)
    requires Keys(keys, purged.index + 1, ids) && |ids| > 0 && Le(purged.leader, ids[0])
    ensures |keys| > 0
    ensures Keys(if purged.leader == keys[0].leader && |keys| >= 2 then keys[0 := purged] else [purged] + keys,
                 purged.index, [purged.leader] + ids)
  {
    var all := [purged.leader] + ids;
    KeyIsEntry(keys, purged.index + 1, ids, 0);
    var keys' := if purged.leader == keys[0].leader && |keys| >= 2 then keys[0 := purged] else [purged] + keys;
    forall i | 0 <= i < |keys'| - 1 ensures Spans(keys', purged.index, all, i) {
      var o := |keys'| - |keys|;
      assert i >= o ==> Spans(keys, purged.index + 1, ids, i - o);
    }
  }
}
