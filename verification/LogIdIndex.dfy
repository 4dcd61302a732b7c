/** The compressed log-id index of a node, edited in place. */
module LogIdIndex {
  import opened Ids
  import opened LogIdKeys

  // ----- Edits of the keys --------------------------------------------------------

  /** The log after `id` is appended, with any gap filled by the last leader. */
  function Grown(ids: Log, first: nat, id: LogId): Log
    requires |ids| > 0 ==> first + |ids| <= id.index
  {
    if |ids| == 0 then [id.leader]
    else ids + Repeat(ids[|ids| - 1], id.index - first - |ids|) + [id.leader]
  }

  /** `append`: replaces a last id that shares its leader with the key before it. */
  function Appended(keys: seq<LogId>, id: LogId): seq<LogId> {
    var l := |keys|;
    if l >= 2 && keys[l - 2].leader == keys[l - 1].leader then keys[l - 1 := id] else keys + [id]
  }

  lemma AppendedKeys(keys: seq<LogId>, first: nat, ids: Log, id: LogId)
    requires Keys(keys, first, ids)
    requires |ids| > 0 ==> first + |ids| <= id.index && Le(ids[|ids| - 1], id.leader)
    ensures Keys(Appended(keys, id), if |ids| == 0 then id.index else first, Grown(ids, first, id))
  {
    var l := |keys|;
    if l > 0 {
      var keys', ids' := Appended(keys, id), Grown(ids, first, id);
      KeysAscend(keys, first, ids, 0, l - 1);
      forall i | 0 <= i < |keys'| - 1 ensures Spans(keys', first, ids', i) {
        assert i < l - 1 ==> Spans(keys, first, ids, i);
      }
    }
  }

  /** The keys after all log ids were appended one by one to an empty list. */
  function AppendAll(first: nat, ids: Log): seq<LogId> {
    if |ids| == 0 then []
    else Appended(AppendAll(first, ids[..|ids| - 1]), LogId(ids[|ids| - 1], first + |ids| - 1))
  }

  /** Appending one by one gives the canonical form, the same list the startup search loads. */
  lemma {:induction false} AppendAllIsCanon(first: nat, ids: Log)
    requires Sorted(ids)
    ensures Keys(AppendAll(first, ids), first, ids) && AppendAll(first, ids) == Canon(first, ids)
    decreases |ids|
  {
    if |ids| > 0 {
      var init, id := ids[..|ids| - 1], LogId(ids[|ids| - 1], first + |ids| - 1);
      AppendAllIsCanon(first, init);
      assert Le(ids[|ids| - 1], ids[|ids| - 1]) && (|init| > 0 ==> Le(ids[|ids| - 2], ids[|ids| - 1]));
      AppendedKeys(AppendAll(first, init), first, init, id);
      assert Grown(init, first, id) == ids by {
        assert |init| > 0 ==> Repeat(init[|init| - 1], 0) == [];
      }
    }
    KeysUnique(AppendAll(first, ids), first, ids);
  }

  /** Number of keys below `at`. */
  function Below(keys: seq<LogId>, at: nat): (r: nat)
    ensures r <= |keys|
    ensures forall k :: 0 <= k < r ==> keys[k].index < at
    ensures r < |keys| ==> keys[r].index >= at
  {
    if |keys| == 0 || keys[0].index >= at then 0 else 1 + Below(keys[1..], at)
  }

  lemma BelowIs(keys: seq<LogId>, first: nat, ids: Log, at: nat)
    requires Keys(keys, first, ids) && |ids| > 0
    ensures |keys| > 0 && keys[0].index == first && keys[|keys| - 1].index == first + |ids| - 1
    ensures at <= first ==> Below(keys, at) == 0
    ensures first + |ids| <= at ==> Below(keys, at) == |keys|
    ensures first < at < first + |ids| ==> 0 < Below(keys, at) < |keys|
    ensures Below(keys, at) + 1 < |keys| ==> keys[Below(keys, at)].index < keys[Below(keys, at) + 1].index
  {
    var i := Below(keys, at);
    if i < |keys| {
      KeysAscend(keys, first, ids, i, |keys| - 1);
      if i + 1 < |keys| {
        KeysAscend(keys, first, ids, i, i + 1);
      }
    }
  }

  /** The first `i` keys stand for the log up to the last of them. */
  lemma PrefixKeys(keys: seq<LogId>, first: nat, ids: Log, i: nat)
    requires Keys(keys, first, ids) && 0 < i <= |keys|
    ensures first <= keys[i - 1].index < first + |ids|
    ensures Keys(keys[..i], first, ids[..keys[i - 1].index + 1 - first])
  {
    KeyIsEntry(keys, first, ids, i - 1);
    var cut, ids' := keys[..i], ids[..keys[i - 1].index + 1 - first];
    forall k | 0 <= k < |cut| - 1 ensures Spans(cut, first, ids', k) {
      assert Spans(keys, first, ids, k);
      KeysAscend(keys, first, ids, k + 1, i - 1);
    }
    if i > 1 {
      KeysAscend(keys, first, ids, i - 2, i - 1);
    }
  }

  /** From position `at` on, covered by the key at `i`, the later keys stay as they are. */
  lemma SuffixKeys(keys: seq<LogId>, first: nat, ids: Log, i: nat, at: nat)
    requires Keys(keys, first, ids) && i < |keys| && keys[i].index <= at
    requires if i + 1 < |keys| then at < keys[i + 1].index else at == keys[i].index
    ensures first <= at < first + |ids|
    ensures Keys([LogId(keys[i].leader, at)] + keys[i + 1..], at, ids[at - first..])
  {
    KeyIsEntry(keys, first, ids, i);
    if i + 1 < |keys| {
      assert Spans(keys, first, ids, i);
      KeysAscend(keys, first, ids, i, i + 1);
    }
    var cut, ids' := [LogId(keys[i].leader, at)] + keys[i + 1..], ids[at - first..];
    assert forall k :: 0 < k < |cut| ==> cut[k] == keys[i + k];
    forall k | 0 <= k < |cut| - 1 ensures Spans(cut, at, ids', k) {
      SuffixSpan(keys, first, ids, i, at, k);
    }
  }

  lemma SuffixSpan(keys: seq<LogId>, first: nat, ids: Log, i: nat, at: nat, k: nat)
    requires Keys(keys, first, ids) && i + k + 1 < |keys| && keys[i].index <= at < keys[i + 1].index
    requires first <= at < first + |ids|
    ensures Spans([LogId(keys[i].leader, at)] + keys[i + 1..], at, ids[at - first..], k)
  {
    var cut, ids' := [LogId(keys[i].leader, at)] + keys[i + 1..], ids[at - first..];
    assert Spans(keys, first, ids, i + k);
    assert cut[k + 1] == keys[i + k + 1];
    assert k > 0 ==> cut[k] == keys[i + k];
    if k > 0 {
      KeysAscend(keys, first, ids, i + 1, i + k);
    }
    assert forall j :: 0 <= j < |ids'| ==> ids'[j] == ids[at - first + j];
  }

  /** `truncate`. */
  function Truncated(keys: seq<LogId>, at: nat): seq<LogId> {
    var i := Below(keys, at);
    if i == |keys| then keys
    else if i > 0 && keys[i - 1].index < at - 1 then Appended(keys[..i], LogId(keys[i - 1].leader, at - 1))
    else keys[..i]
  }

  lemma TruncatedKeys(keys: seq<LogId>, first: nat, ids: Log, at: nat)
    requires Keys(keys, first, ids) && |ids| > 0
    ensures at <= first ==> Truncated(keys, at) == []
    ensures first + |ids| <= at ==> Truncated(keys, at) == keys
    ensures first < at < first + |ids| ==> Keys(Truncated(keys, at), first, ids[..at - first])
  {
    BelowIs(keys, first, ids, at);
    if first < at < first + |ids| {
      CutBelow(keys, first, ids, at);
    }
  }

  lemma BeforeBelow(keys: seq<LogId>, first: nat, ids: Log, at: nat)
    requires Keys(keys, first, ids) && first < at < first + |ids| && 0 < Below(keys, at) < |keys|
    ensures var k := keys[Below(keys, at) - 1];
            first <= k.index < at && forall j :: k.index <= first + j < at ==> ids[j] == k.leader
  {
    assert Spans(keys, first, ids, Below(keys, at) - 1);
  }

  lemma CutBelow(keys: seq<LogId>, first: nat, ids: Log, at: nat)
    requires Keys(keys, first, ids) && first < at < first + |ids| && 0 < Below(keys, at) < |keys|
    ensures Keys(Truncated(keys, at), first, ids[..at - first])
  {
    hide Below, Keys, Spans, Appended;
    var i := Below(keys, at);
    var k := keys[i - 1];
    BeforeBelow(keys, first, ids, at);
    PrefixKeys(keys, first, ids, i);
    var head := ids[..k.index + 1 - first];
    if k.index < at - 1 {
      AppendedKeys(keys[..i], first, head, LogId(k.leader, at - 1));
      assert Grown(head, first, LogId(k.leader, at - 1)) == ids[..at - first];
    } else {
      assert head == ids[..at - first];
    }
  }

  /** `purge`. */
  function Purged(keys: seq<LogId>, upto: LogId): seq<LogId> {
    var l := |keys|;
    if l == 0 || upto.index > keys[l - 1].index then [upto]
    else if upto.index < keys[0].index then keys
    else
      var i := Below(keys, upto.index);
      if i < l && keys[i].index == upto.index then keys[i..]
      else if i > 0 then [LogId(keys[i - 1].leader, upto.index)] + keys[i..]
      else keys
  }

  /** The key that covers index `at`. */
  function Cover(keys: seq<LogId>, at: nat): (i: nat)
    requires |keys| > 0 && keys[0].index <= at <= keys[|keys| - 1].index
    ensures i < |keys| && keys[i].index <= at
  {
    var i := Below(keys, at);
    if i < |keys| && keys[i].index == at then i else i - 1
  }

  lemma PurgedIs(keys: seq<LogId>, upto: LogId)
    requires |keys| > 0 && keys[0].index <= upto.index <= keys[|keys| - 1].index
    ensures var i := Cover(keys, upto.index);
            Purged(keys, upto) == [LogId(keys[i].leader, upto.index)] + keys[i + 1..]
  {
    hide Below;
    var i := Below(keys, upto.index);
    if i < |keys| && keys[i].index == upto.index {
      assert keys[i..] == [LogId(keys[i].leader, upto.index)] + keys[i + 1..];
    }
  }

  lemma CoverSpans(keys: seq<LogId>, first: nat, ids: Log, at: nat)
    requires Keys(keys, first, ids) && first <= at < first + |ids|
    ensures |keys| > 0 && keys[0].index <= at <= keys[|keys| - 1].index
    ensures var i := Cover(keys, at); if i + 1 < |keys| then at < keys[i + 1].index else at == keys[i].index
  {
    BelowIs(keys, first, ids, at);
    hide Below;
  }

  /** Purging past the last id, as installing a snapshot may do, leaves only `upto`. */
  lemma PurgedAll(keys: seq<LogId>, first: nat, ids: Log, upto: LogId)
    requires Keys(keys, first, ids) && (|ids| == 0 || first + |ids| <= upto.index)
    ensures Purged(keys, upto) == [upto]
  {
  }

  lemma PurgedSome(keys: seq<LogId>, first: nat, ids: Log, upto: LogId)
    requires Keys(keys, first, ids) && first <= upto.index < first + |ids|
    ensures Keys(Purged(keys, upto), upto.index, ids[upto.index - first..])
  {
    CoverSpans(keys, first, ids, upto.index);
    PurgedIs(keys, upto);
    var i := Cover(keys, upto.index);
    hide Keys, Purged, Cover;
    SuffixKeys(keys, first, ids, i, upto.index);
  }

  /** `ref_at`. */
  function RefAt(keys: seq<LogId>, index: nat): Option<LogId> {
    var i := Below(keys, index);
    if i < |keys| && keys[i].index == index then Some(LogId(keys[i].leader, index))
    else if i == 0 || i == |keys| then None
    else Some(LogId(keys[i - 1].leader, index))
  }

  /** The compressed index answers like the full log. */
  lemma RefAtIs(keys: seq<LogId>, first: nat, ids: Log, index: nat)
    requires Keys(keys, first, ids)
    ensures RefAt(keys, index) == if first <= index < first + |ids| then Some(LogId(ids[index - first], index)) else None
  {
    if |ids| > 0 {
      BelowIs(keys, first, ids, index);
      var i := Below(keys, index);
      if i < |keys| {
        KeyIsEntry(keys, first, ids, i);
      }
      if 0 < i < |keys| {
        assert Spans(keys, first, ids, i - 1);
      }
    }
  }

  /** First and last id of the last leader, `by_last_leader`. */
  function ByLastLeader(keys: seq<LogId>): Option<(LogId, LogId)> {
    var l := |keys|;
    if l == 0 then None
    else if l > 1 && keys[l - 1].leader == keys[l - 2].leader then Some((keys[l - 2], keys[l - 1]))
    else Some((keys[l - 1], keys[l - 1]))
  }

  /** It gives the whole run of entries of the last leader, and not less. */
  lemma ByLastLeaderIs(keys: seq<LogId>, first: nat, ids: Log)
    requires Keys(keys, first, ids) && |ids| > 0
    ensures ByLastLeader(keys).Some?
    ensures var (a, b) := ByLastLeader(keys).value;
            && b == LogId(ids[|ids| - 1], first + |ids| - 1)
            && first <= a.index <= b.index && a.leader == b.leader
            && (forall j :: a.index <= first + j < first + |ids| ==> ids[j] == b.leader)
            && (a.index > first ==> ids[a.index - first - 1] != b.leader)
  {
    var l := |keys|;
    KeyIsEntry(keys, first, ids, l - 1);
    if l > 1 {
      assert Spans(keys, first, ids, l - 2);
      if keys[l - 1].leader == keys[l - 2].leader && l > 2 {
        assert Spans(keys, first, ids, l - 3);
      }
    }
  }

  // ----- The class ----------------------------------------------------------------

  /** Where a binary search by index finds `at`, or where it would have to be inserted. */
  method BinarySearch(keys: seq<LogId>, at: nat) returns (found: bool, i: nat)
    requires forall a, b :: 0 <= a < b < |keys| ==> keys[a].index < keys[b].index
    ensures i == Below(keys, at) && (found <==> i < |keys| && keys[i].index == at)
  {
    var lo, hi := 0, |keys|;
    while lo < hi
      invariant 0 <= lo <= hi <= |keys|
      invariant forall k :: 0 <= k < lo ==> keys[k].index < at
      invariant forall k :: hi <= k < |keys| ==> keys[k].index > at
    {
      var mid := (lo + hi) / 2;
      if keys[mid].index == at {
        BelowIsAt(keys, at, mid);
        return true, mid;
      } else if keys[mid].index < at {
        lo := mid + 1;
      } else {
        hi := mid;
      }
    }
    BelowIsAt(keys, at, lo);
    return false, lo;
  }

  lemma BelowIsAt(keys: seq<LogId>, at: nat, i: nat)
    requires i <= |keys| && (forall k :: 0 <= k < i ==> keys[k].index < at) && (i < |keys| ==> keys[i].index >= at)
    ensures Below(keys, at) == i
  {
  }

  lemma Ascending(keys: seq<LogId>, first: nat, ids: Log)
    requires Keys(keys, first, ids)
    ensures forall a, b :: 0 <= a < b < |keys| ==> keys[a].index < keys[b].index
  {
    forall a, b | 0 <= a < b < |keys| ensures keys[a].index < keys[b].index {
      KeysAscend(keys, first, ids, a, b);
    }
  }

  function Leaders(ids: seq<LogId>): (r: Log)
    ensures |r| == |ids| && forall k :: 0 <= k < |ids| ==> r[k] == ids[k].leader
  {
    seq(|ids|, k requires 0 <= k < |ids| => ids[k].leader)
  }

  /** Entries skipped because they had the last leader are filled in by the next append. */
  lemma FilledByLast(base: Log, first: nat, leaders: Log, done: nat, i: nat, id: LogId)
    requires done <= i < |leaders| && id.leader == leaders[i]
    requires var log := base + leaders[..done];
             if log == [] then i == 0
             else id.index == first + |base| + i && forall k :: done <= k < i ==> leaders[k] == log[|log| - 1]
    ensures base + leaders[..i + 1] == Grown(base + leaders[..done], first, id)
  {
    assert leaders[..i + 1] == leaders[..done] + leaders[done..i] + [leaders[i]];
    var log := base + leaders[..done];
    assert log != [] ==> Repeat(log[|log| - 1], i - done) == leaders[done..i];
  }

  lemma NoKeys(keys: seq<LogId>, first: nat, ids: Log)
    requires Keys(keys, first, ids)
    ensures |keys| == 0 <==> |ids| == 0
  {
  }

  lemma PurgedAt(keys: seq<LogId>, upto: LogId, i: nat)
    requires |keys| > 0 && keys[0].index <= upto.index <= keys[|keys| - 1].index && i == Below(keys, upto.index)
    ensures Purged(keys, upto) == if keys[i].index == upto.index then keys[i..]
                                  else keys[i - 1..][0 := keys[i - 1].(index := upto.index)]
  {
    hide Below;
  }

  lemma OneKey(id: LogId)
    ensures Keys([id], id.index, [id.leader])
  {
  }

  lemma NoneLeft(first: nat)
    ensures Keys([], first, [])
  {
  }

  /** Growing by the first and by the last id of a run fills in what lies between. */
  lemma GrownByRun(log: Log, first: nat, id: LogId, n: nat)
    requires n > 0 && (log != [] ==> id.index == first + |log|)
    ensures var one, f := Grown(log, first, id), if log == [] then id.index else first;
            && one == log + Repeat(id.leader, 1) && one != [] && one[|one| - 1] == id.leader
            && (n > 1 ==> f + |one| <= id.index + n - 1)
            && (n > 1 ==> Grown(one, f, LogId(id.leader, id.index + n - 1)) == log + Repeat(id.leader, n))
            && Le(id.leader, id.leader)
  {
    var one := Grown(log, first, id);
    assert one == log + [id.leader];
  }

  class LogIdList {
    var keyLogIds: seq<LogId>
    /** Index of the first entry, and the leader id of every entry. */
    ghost var first: nat
    ghost var log: Log

    ghost predicate Valid()
      reads this
    {
      Keys(keyLogIds, first, log)
    }

    constructor ()
      ensures Valid() && log == [] && keyLogIds == [] && first == 0
    {
      keyLogIds := [];
      first := 0;
      log := [];
    }

    method ByLast() returns (r: Option<(LogId, LogId)>)
      requires Valid()
      ensures r == ByLastLeader(keyLogIds)
    {
      var l := |keyLogIds|;
      if l < 2 {
        var last := Last();
        return if last.None? then None else Some((last.value, last.value));
      }
      if keyLogIds[l - 1].leader == keyLogIds[l - 2].leader {
        return Some((keyLogIds[l - 2], keyLogIds[l - 1]));
      }
      return Some((keyLogIds[l - 1], keyLogIds[l - 1]));
    }

    method Last() returns (r: Option<LogId>)
      requires Valid()
      ensures r == if log == [] then None else Some(LogId(log[|log| - 1], first + |log| - 1))
    {
      r := if keyLogIds == [] then None else Some(keyLogIds[|keyLogIds| - 1]);
    }

    method Append(id: LogId)
      requires Valid()
      requires log != [] ==> first + |log| <= id.index && Le(log[|log| - 1], id.leader)
      modifies this
      ensures Valid()
      ensures keyLogIds == Appended(old(keyLogIds), id)
      ensures log == Grown(old(log), old(first), id)
      ensures first == if old(log) == [] then id.index else old(first)
    {
      AppendedKeys(keyLogIds, first, log, id);
      ghost var grown := Grown(log, first, id);
      if log == [] {
        first := id.index;
      }
      log := grown;
      var l := |keyLogIds|;
      if l == 0 {
        keyLogIds := [id];
        return;
      }
      if l == 1 {
        keyLogIds := keyLogIds + [id];
        return;
      }
      if keyLogIds[l - 2].leader == keyLogIds[l - 1].leader {
        keyLogIds := keyLogIds[l - 1 := id];
        return;
      }
      keyLogIds := keyLogIds + [id];
    }

    /** Consecutive ids of one leader: only the first and the last are looked at. */
    method ExtendFromSameLeader(ids: seq<LogId>)
      requires Valid()
      requires forall k :: 0 <= k < |ids| ==> ids[k] == LogId(ids[0].leader, ids[0].index + k)
      requires log != [] && ids != [] ==> ids[0].index == first + |log| && Le(log[|log| - 1], ids[0].leader)
      modifies this
      ensures Valid()
      ensures ids != [] ==> log == old(log) + Repeat(ids[0].leader, |ids|)
      ensures ids != [] ==> first == if old(log) == [] then ids[0].index else old(first)
      ensures ids == [] ==> log == old(log) && first == old(first)
    {
      hide Keys, Grown, Appended;
      if ids != [] {
        var last := ids[|ids| - 1];
        GrownByRun(log, first, ids[0], |ids|);
        Append(ids[0]);
        if last != ids[0] {
          Append(last);
        }
      }
    }

    /** Consecutive ids: only changes of leader and the last id are appended. */
    method Extend(ids: seq<LogId>)
      requires Valid()
      requires forall k :: 0 <= k < |ids| ==> ids[k].index == ids[0].index + k
      requires forall j, k :: 0 <= j <= k < |ids| ==> Le(ids[j].leader, ids[k].leader)
      requires log != [] && ids != [] ==> ids[0].index == first + |log| && Le(log[|log| - 1], ids[0].leader)
      modifies this
      ensures Valid()
      ensures log == old(log) + Leaders(ids)
      ensures first == if old(log) == [] && ids != [] then ids[0].index else old(first)
    {
      hide Keys, Grown, Appended, Leaders;
      ghost var leaders := Leaders(ids);
      ghost var base := log;
      ghost var done := 0;
      for i := 0 to |ids|
        invariant Valid() && 0 <= done <= i
        invariant log == base + leaders[..done]
        invariant i > 0 ==> log != []
        invariant first == if base == [] && i > 0 then ids[0].index else old(first)
        invariant forall k :: done <= k < i ==> leaders[k] == log[|log| - 1]
        invariant i == |ids| ==> done == i
      {
        var id := ids[i];
        var last := Last();
        if last.None? || last.value.leader != id.leader {
          FilledByLast(base, first, leaders, done, i, id);
          Append(id);
          done := i + 1;
        }
        if i == |ids| - 1 {
          last := Last();
          if last != Some(id) {
            FilledByLast(base, first, leaders, done, i, id);
            Append(id);
          }
          done := i + 1;
        }
      }
      assert leaders[..|ids|] == leaders;
    }

    /** Keeps exactly the indices below `at`. */
    method Truncate(at: nat)
      requires Valid()
      modifies this
      ensures Valid() && first == old(first)
      ensures log == if at <= first then [] else if at - first < |old(log)| then old(log)[..at - first] else old(log)
    {
      hide Keys, Below, Appended, Grown, Spans;
      ghost var whole, f, ids := keyLogIds, first, log;
      Ascending(keyLogIds, first, log);
      var found, i := BinarySearch(keyLogIds, at);
      NoKeys(whole, f, ids);
      if whole != [] {
        TruncatedKeys(whole, f, ids, at);
        BelowIs(whole, f, ids, at);
      }
      if !found && i == |keyLogIds| {
        return;
      }
      keyLogIds := keyLogIds[..i];
      if i == 0 {
        log := [];
        NoneLeft(first);
        return;
      }
      PrefixKeys(whole, f, ids, i);
      BeforeBelow(whole, f, ids, at);
      var last := keyLogIds[|keyLogIds| - 1];
      log := ids[..last.index + 1 - f];
      if last.index < at - 1 {
        Append(LogId(last.leader, at - 1));
      }
      log := ids[..at - f];
    }

    /** Keeps exactly the indices from `upto` on. */
    method Purge(upto: LogId)
      requires Valid()
      modifies this
      ensures Valid()
      ensures old(log) == [] || old(first) + |old(log)| <= upto.index ==> first == upto.index && log == [upto.leader]
      ensures old(log) != [] && upto.index < old(first) ==> first == old(first) && log == old(log)
      ensures var k := upto.index - old(first);
              0 <= k < |old(log)| ==> first == upto.index && log == old(log)[k..]
    {
      hide Keys, Below, Spans, Purged, Cover, Sorted, Lt;
      NoKeys(keyLogIds, first, log);
      if keyLogIds != [] {
        BelowIs(keyLogIds, first, log, upto.index);
      }
      if keyLogIds == [] || upto.index >= keyLogIds[|keyLogIds| - 1].index + 1 {
        keyLogIds := [upto];
        first, log := upto.index, [upto.leader];
        OneKey(upto);
        return;
      }
      if upto.index < keyLogIds[0].index {
        return;
      }
      ghost var whole := keyLogIds;
      Ascending(keyLogIds, first, log);
      PurgedSome(keyLogIds, first, log, upto);
      var found, i := BinarySearch(keyLogIds, upto.index);
      PurgedAt(keyLogIds, upto, i);
      first, log := upto.index, log[upto.index - first..];
      if found {
        if i > 0 {
          keyLogIds := keyLogIds[i..];
        }
      } else {
        keyLogIds := keyLogIds[i - 1..];
        keyLogIds := keyLogIds[0 := keyLogIds[0].(index := upto.index)];
      }
    }

    method Get(index: nat) returns (r: Option<LogId>)
      requires Valid()
      ensures r == if first <= index < first + |log| then Some(LogId(log[index - first], index)) else None
    {
      RefAtIs(keyLogIds, first, log, index);
      Ascending(keyLogIds, first, log);
      var found, i := BinarySearch(keyLogIds, index);
      if found {
        return Some(LogId(keyLogIds[i].leader, index));
      }
      if i == 0 || i == |keyLogIds| {
        return None;
      }
      return Some(LogId(keyLogIds[i - 1].leader, index));
    }
  }
}
