/** The compressed form of a run of log ids: the first id, the ids where the leader changes, and the
    last id. */
module LogIdKeys {
  import opened Ids

  /** `keys` stands for the log ids `ids`, whose first one has index `first`. */
  ghost predicate Keys(keys: seq<LogId>, first: nat, ids: Log) {
    && (|keys| == 0 <==> |ids| == 0)
    && (|keys| > 0 ==> keys[0].index == first && keys[|keys| - 1] == LogId(ids[|ids| - 1], first + |ids| - 1))
    && (forall i :: 0 <= i < |keys| - 1 ==> Spans(keys, first, ids, i))
    && (forall i :: 0 <= i < |keys| - 2 ==> Lt(keys[i].leader, keys[i + 1].leader))
    && (|keys| > 1 ==> Le(keys[|keys| - 2].leader, keys[|keys| - 1].leader))
  }

  /** From the key at `i` up to the next one, every entry has the leader of the key. */
  ghost predicate Spans(keys: seq<LogId>, first: nat, ids: Log, i: nat)
    requires i + 1 < |keys|
  {
    && first <= keys[i].index < keys[i + 1].index < first + |ids|
    && forall j :: keys[i].index <= first + j < keys[i + 1].index ==> ids[j] == keys[i].leader
  }

  lemma {:induction false} KeysAscend(keys: seq<LogId>, first: nat, ids: Log, i: nat, j: nat)
    requires Keys(keys, first, ids) && i <= j < |keys|
    ensures keys[i].index + (j - i) <= keys[j].index && Le(keys[i].leader, keys[j].leader)
    ensures first <= keys[i].index < first + |ids|
    decreases j
  {
    if j > 0 {
      assert Spans(keys, first, ids, j - 1);
      if i < j {
        KeysAscend(keys, first, ids, i, j - 1);
      } else {
        KeysAscend(keys, first, ids, i - 1, j - 1);
      }
    }
  }

  /** The key that covers position `k`. */
  lemma {:induction false} Covered(keys: seq<LogId>, first: nat, ids: Log, k: nat, upto: nat) returns (i: nat)
    requires Keys(keys, first, ids) && k < |ids| && upto < |keys|
    requires upto + 1 < |keys| ==> first + k < keys[upto + 1].index
    ensures i <= upto && keys[i].index <= first + k && ids[k] == keys[i].leader
    ensures i + 1 < |keys| ==> first + k < keys[i + 1].index
    decreases upto
  {
    i := upto;
    if first + k < keys[upto].index {
      i := Covered(keys, first, ids, k, upto - 1);
    } else if upto + 1 < |keys| {
      assert Spans(keys, first, ids, upto);
    }
  }

  lemma KeysAreSorted(keys: seq<LogId>, first: nat, ids: Log)
    requires Keys(keys, first, ids)
    ensures Sorted(ids)
  {
    forall a, b | 0 <= a <= b < |ids| ensures Le(ids[a], ids[b]) {
      var i := Covered(keys, first, ids, a, |keys| - 1);
      var j := Covered(keys, first, ids, b, |keys| - 1);
      if j < i {
        KeysAscend(keys, first, ids, j + 1, i);
      } else {
        KeysAscend(keys, first, ids, i, j);
      }
    }
  }

  /** Every key is the id of an entry. */
  lemma KeyIsEntry(keys: seq<LogId>, first: nat, ids: Log, i: nat)
    requires Keys(keys, first, ids) && i < |keys|
    ensures first <= keys[i].index < first + |ids| && ids[keys[i].index - first] == keys[i].leader
  {
    if i + 1 < |keys| {
      assert Spans(keys, first, ids, i);
    }
  }

  // ----- Canonical form -----------------------------------------------------------

  /** The ids among the first `n` that begin the entries of a leader. */
  function Starts(first: nat, ids: Log, n: nat): seq<LogId>
    requires n <= |ids|
  {
    if n == 0 then []
    else if n == 1 || ids[n - 1] != ids[n - 2] then Starts(first, ids, n - 1) + [LogId(ids[n - 1], first + n - 1)]
    else Starts(first, ids, n - 1)
  }

  /** The first id, every change of leader, and the last id. */
  function Canon(first: nat, ids: Log): seq<LogId> {
    var starts, n := Starts(first, ids, |ids|), |ids|;
    if n > 1 && ids[n - 1] == ids[n - 2] then starts + [LogId(ids[n - 1], first + n - 1)] else starts
  }

  lemma {:induction false} StartsAre(first: nat, ids: Log, n: nat)
    requires Sorted(ids) && n <= |ids|
    ensures var s := Starts(first, ids, n);
            && (n > 0 ==> |s| > 0 && s[0] == LogId(ids[0], first))
            && (n > 0 ==> s[|s| - 1].leader == ids[n - 1] && first <= s[|s| - 1].index < first + n)
            && (n > 0 ==> forall j :: s[|s| - 1].index <= first + j < first + n ==> ids[j] == ids[n - 1])
            && (forall i :: 0 <= i < |s| - 1 ==> Spans(s, first, ids, i) && Lt(s[i].leader, s[i + 1].leader))
  {
    if n > 1 {
      StartsAre(first, ids, n - 1);
      var s, t := Starts(first, ids, n), Starts(first, ids, n - 1);
      assert Le(ids[n - 2], ids[n - 1]);
      forall i | 0 <= i < |s| - 1 ensures Spans(s, first, ids, i) && Lt(s[i].leader, s[i + 1].leader) {
        assert i < |t| - 1 ==> Spans(t, first, ids, i);
      }
    }
  }

  lemma CanonIsKeys(first: nat, ids: Log)
    requires Sorted(ids)
    ensures Keys(Canon(first, ids), first, ids)
  {
    var n, s, c := |ids|, Starts(first, ids, |ids|), Canon(first, ids);
    StartsAre(first, ids, n);
    if n > 0 {
      StartsAre(first, ids, n - 1);
      assert n > 1 && ids[n - 1] != ids[n - 2] ==> s[|s| - 1].index == first + n - 1;
      forall i | 0 <= i < |c| - 1 ensures Spans(c, first, ids, i) {
        assert i < |s| - 1 ==> Spans(s, first, ids, i);
      }
    }
  }

  /** One key after the other is forced. */
  lemma {:induction false} SameKey(a: seq<LogId>, b: seq<LogId>, first: nat, ids: Log, i: nat)
    requires Keys(a, first, ids) && Keys(b, first, ids) && i < |a| && i < |b|
    ensures a[i] == b[i]
    decreases i
  {
    KeyIsEntry(a, first, ids, i);
    KeyIsEntry(b, first, ids, i);
    if i > 0 {
      SameKey(a, b, first, ids, i - 1);
      NotEarlier(a, b, first, ids, i);
      NotEarlier(b, a, first, ids, i);
    }
  }

  lemma NotEarlier(a: seq<LogId>, b: seq<LogId>, first: nat, ids: Log, i: nat)
    requires Keys(a, first, ids) && Keys(b, first, ids) && 0 < i < |a| && i < |b| && a[i - 1] == b[i - 1]
    ensures a[i].index >= b[i].index
  {
    assert Spans(a, first, ids, i - 1) && Spans(b, first, ids, i - 1);
    KeyIsEntry(a, first, ids, i);
    assert a[i].index < b[i].index ==> a[i].leader == b[i - 1].leader;
    assert i < |a| - 1 ==> Lt(a[i - 1].leader, a[i].leader);
  }

  /** The compressed form is unique: whatever stands for `ids` is their canonical form. */
  lemma KeysUnique(keys: seq<LogId>, first: nat, ids: Log)
    requires Keys(keys, first, ids)
    ensures keys == Canon(first, ids)
  {
    KeysAreSorted(keys, first, ids);
    CanonIsKeys(first, ids);
    var c := Canon(first, ids);
    forall i | 0 <= i < |keys| && i < |c| ensures keys[i] == c[i] {
      SameKey(keys, c, first, ids, i);
    }
    if |keys| > 0 {
      NotLonger(keys, c, first, ids);
      NotLonger(c, keys, first, ids);
    }
  }

  lemma NotLonger(a: seq<LogId>, b: seq<LogId>, first: nat, ids: Log)
    requires Keys(a, first, ids) && Keys(b, first, ids) && |b| > 0
    ensures |a| <= |b|
  {
    if |a| > |b| {
      SameKey(a, b, first, ids, |b| - 1);
      KeysAscend(a, first, ids, |b| - 1, |a| - 1);
      assert false;
    }
  }
}
