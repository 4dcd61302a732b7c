/** The log store: entries in a byte-ordered map under 8-byte big-endian keys. */
module LogStore {
  import opened Ids

  type Byte = x: nat | x < 256

  type Key = seq<Byte>

  /** 2^64. */
  const LIMIT: nat := 0x1_0000_0000_0000_0000
  const MAX := LIMIT - 1

  datatype Entry = Entry(id: LogId, payload: string)

  // ----- Keys ---------------------------------------------------------------------

  /** The `width` lowest bytes of `n`, most significant first. */
  function Encode(n: nat, width: nat): (k: Key)
    ensures |k| == width
  {
    if width == 0 then [] else Encode(n / 256, width - 1) + [n % 256]
  }

  function Decode(k: Key): nat {
    if |k| == 0 then 0 else Decode(k[..|k| - 1]) * 256 + k[|k| - 1]
  }

  function Pow256(width: nat): nat {
    if width == 0 then 1 else 256 * Pow256(width - 1)
  }

  /** `id_to_bin`. */
  function IdToBin(n: nat): Key {
    Encode(n, 8)
  }

  /** `bin_to_id` looks at the first 8 bytes. */
  function BinToId(k: Key): nat
    requires |k| >= 8
  {
    Decode(k[..8])
  }

  /** Byte order: the first difference decides, and a proper prefix comes first. */
  predicate KeyLt(a: Key, b: Key) {
    if |b| == 0 then false
    else if |a| == 0 then true
    else a[0] < b[0] || (a[0] == b[0] && KeyLt(a[1..], b[1..]))
  }

  lemma {:induction false} DecodeEncode(n: nat, width: nat)
    requires n < Pow256(width)
    ensures Decode(Encode(n, width)) == n
  {
    if width > 0 {
      DecodeEncode(n / 256, width - 1);
      var k := Encode(n, width);
      assert k[..|k| - 1] == Encode(n / 256, width - 1);
    }
  }

  lemma EightBytes()
    ensures Pow256(8) == LIMIT
  {
    assert Pow256(4) == 0x1_0000_0000;
  }

  /** Keys round-trip for every 64-bit index. */
  lemma KeyRoundTrip(n: nat)
    requires n < LIMIT
    ensures |IdToBin(n)| == 8 && BinToId(IdToBin(n)) == n
  {
    EightBytes();
    DecodeEncode(n, 8);
    assert IdToBin(n)[..8] == IdToBin(n);
  }

  lemma {:induction false} LastByteDecides(a: Key, b: Key, x: Byte, y: Byte)
    requires |a| == |b|
    ensures KeyLt(a + [x], b + [y]) <==> KeyLt(a, b) || (a == b && x < y)
    decreases |a|
  {
    if |a| == 0 {
      assert a + [x] == [x] && b + [y] == [y];
      assert [x][1..] == [] && [y][1..] == [];
    } else {
      LastByteDecides(a[1..], b[1..], x, y);
      assert (a + [x])[1..] == a[1..] + [x] && (b + [y])[1..] == b[1..] + [y];
      assert a == [a[0]] + a[1..] && b == [b[0]] + b[1..];
    }
  }

  lemma {:induction false} EncodeOrder(m: nat, n: nat, width: nat)
    requires m < Pow256(width) && n < Pow256(width)
    ensures KeyLt(Encode(m, width), Encode(n, width)) <==> m < n
  {
    if width > 0 {
      EncodeOrder(m / 256, n / 256, width - 1);
      LastByteDecides(Encode(m / 256, width - 1), Encode(n / 256, width - 1), m % 256, n % 256);
      EncodeSame(m / 256, n / 256, width - 1);
    }
  }

  lemma EncodeSame(m: nat, n: nat, width: nat)
    requires m < Pow256(width) && n < Pow256(width)
    ensures Encode(m, width) == Encode(n, width) <==> m == n
  {
    DecodeEncode(m, width);
    DecodeEncode(n, width);
  }

  /** Byte order of the keys is the order of the indices. */
  lemma KeyOrder(m: nat, n: nat)
    requires m < LIMIT && n < LIMIT
    ensures KeyLt(IdToBin(m), IdToBin(n)) <==> m < n
    ensures IdToBin(m) == IdToBin(n) <==> m == n
  {
    EightBytes();
    EncodeOrder(m, n, 8);
    EncodeSame(m, n, 8);
  }

  // ----- The byte-ordered map -----------------------------------------------------

  type Rows = map<Key, Entry>

  /** Every key is the key of the index of its entry. */
  ghost predicate KeysOk(rows: Rows) {
    forall k :: k in rows ==> rows[k].id.index < MAX && k == IdToBin(rows[k].id.index)
  }

  /** The entry stored for an index. */
  function At(rows: Rows, i: nat): Option<Entry> {
    if IdToBin(i) in rows then Some(rows[IdToBin(i)]) else None
  }

  lemma AtIs(rows: Rows, i: nat)
    requires KeysOk(rows) && i < MAX
    ensures At(rows, i).Some? ==> At(rows, i).value.id.index == i
  {
    if At(rows, i).Some? {
      KeyOrder(i, rows[IdToBin(i)].id.index);
    }
  }

  lemma RowIs(rows: Rows, k: Key)
    requires KeysOk(rows) && k in rows
    ensures At(rows, rows[k].id.index) == Some(rows[k]) && rows[k].id.index < MAX
    ensures |k| == 8 && BinToId(k) == rows[k].id.index
  {
    KeyRoundTrip(rows[k].id.index);
  }

  // ----- Writing ------------------------------------------------------------------

  /** The last of the entries with index `i`. */
  function LastFor(es: seq<Entry>, i: nat): Option<Entry> {
    if |es| == 0 then None
    else if es[|es| - 1].id.index == i then Some(es[|es| - 1])
    else LastFor(es[..|es| - 1], i)
  }

  /** `delete_range_cf`: keys from `from` on, below `to`. */
  function DeleteRange(rows: Rows, from: Key, to: Key): Rows {
    map k | k in rows && (KeyLt(k, from) || !KeyLt(k, to)) :: rows[k]
  }

  lemma DeleteRangeIs(rows: Rows, from: nat, to: nat, i: nat)
    requires from < LIMIT && to < LIMIT && i < LIMIT
    ensures At(DeleteRange(rows, IdToBin(from), IdToBin(to)), i) == if from <= i < to then None else At(rows, i)
  {
    KeyOrder(i, from);
    KeyOrder(i, to);
  }

  // ----- Reading ------------------------------------------------------------------

  datatype Bound = Included(x: nat) | Excluded(x: nat) | Unbounded

  /** `RangeBounds::contains`. */
  predicate Contains(lo: Bound, hi: Bound, i: nat) {
    && (match lo case Included(x) => x <= i case Excluded(x) => x < i case Unbounded => true)
    && (match hi case Included(x) => i <= x case Excluded(x) => i < x case Unbounded => true)
  }

  /** The ranges callers use: half open, closed, and everything from an index on. */
  lemma RangesAre(a: nat, b: nat, i: nat)
    ensures Contains(Included(a), Excluded(b), i) <==> a <= i < b
    ensures Contains(Included(a), Included(b), i) <==> a <= i <= b
    ensures Contains(Excluded(a), Excluded(b), i) <==> a < i < b
    ensures Contains(Included(a), Unbounded, i) <==> a <= i
    ensures Contains(Unbounded, Excluded(b), i) <==> i < b
  {
  }

  function Start(lo: Bound): nat {
    match lo
    case Included(x) => x
    case Excluded(x) => x + 1
    case Unbounded => 0
  }

  /** The keys an iterator started at `start` goes through. */
  function From(rows: Rows, start: Key): set<Key> {
    set k | k in rows && !KeyLt(k, start)
  }

  /** A key that the iterator yields before all other ones of `rest`. */
  predicate Foremost(rest: set<Key>, k: Key) {
    k in rest && forall j | j in rest :: !KeyLt(j, k)
  }

  lemma {:induction false} ForemostExists(rows: Rows, rest: set<Key>)
    requires KeysOk(rows) && rest != {} && rest <= rows.Keys
    ensures exists k :: Foremost(rest, k)
  {
    var z :| z in rest;
    if rest == {z} {
      KeyOrder(rows[z].id.index, rows[z].id.index);
      assert Foremost(rest, z);
    } else {
      ForemostExists(rows, rest - {z});
      var k :| Foremost(rest - {z}, k);
      var a, b := rows[k].id.index, rows[z].id.index;
      KeyOrder(a, b);
      KeyOrder(b, a);
      var w := if a <= b then k else z;
      forall j | j in rest ensures !KeyLt(j, w) {
        KeyOrder(rows[j].id.index, rows[w].id.index);
        KeyOrder(rows[j].id.index, a);
      }
      assert Foremost(rest, w);
    }
  }

  /** A key that an iterator from the end yields first. */
  predicate Hindmost(keys: set<Key>, k: Key) {
    k in keys && forall j | j in keys :: !KeyLt(k, j)
  }

  lemma {:induction false} HindmostExists(rows: Rows, rest: set<Key>)
    requires KeysOk(rows) && rest != {} && rest <= rows.Keys
    ensures exists k :: Hindmost(rest, k)
  {
    var z :| z in rest;
    if rest == {z} {
      KeyOrder(rows[z].id.index, rows[z].id.index);
      assert Hindmost(rest, z);
    } else {
      HindmostExists(rows, rest - {z});
      var k :| Hindmost(rest - {z}, k);
      var a, b := rows[k].id.index, rows[z].id.index;
      KeyOrder(a, b);
      KeyOrder(b, a);
      var w := if a >= b then k else z;
      forall j | j in rest ensures !KeyLt(w, j) {
        KeyOrder(rows[w].id.index, rows[j].id.index);
        KeyOrder(a, rows[j].id.index);
      }
      assert Hindmost(rest, w);
    }
  }

  /** `res` holds, in ascending order, exactly the entries with an index in `lo..hi` that come before
      those of `rest`. */
  ghost predicate Collected(rows: Rows, lo: Bound, hi: Bound, rest: set<Key>, res: seq<Entry>) {
    && (forall a, b :: 0 <= a < b < |res| ==> res[a].id.index < res[b].id.index)
    && (forall a :: 0 <= a < |res| ==> IsRow(rows, res[a]) && Contains(lo, hi, res[a].id.index))
    && (forall a, k :: 0 <= a < |res| && k in rest && k in rows ==> res[a].id.index < rows[k].id.index)
    && (forall k :: k in rows && k !in rest && Contains(lo, hi, rows[k].id.index) ==> rows[k] in res)
  }

  predicate IsRow(rows: Rows, e: Entry) {
    IdToBin(e.id.index) in rows && rows[IdToBin(e.id.index)] == e
  }

  lemma CollectNext(rows: Rows, lo: Bound, hi: Bound, rest: set<Key>, res: seq<Entry>, k: Key)
    requires KeysOk(rows) && rest <= rows.Keys && Foremost(rest, k) && Collected(rows, lo, hi, rest, res)
    requires Contains(lo, hi, rows[k].id.index)
    ensures Collected(rows, lo, hi, rest - {k}, res + [rows[k]])
  {
    forall j | j in rest && j != k ensures rows[k].id.index < rows[j].id.index {
      KeyOrder(rows[j].id.index, rows[k].id.index);
    }
  }

  /** Beyond the first key outside the range there is nothing more to collect. */
  lemma CollectEnd(rows: Rows, lo: Bound, hi: Bound, rest: set<Key>, res: seq<Entry>, k: Key)
    requires KeysOk(rows) && rest <= rows.Keys && Foremost(rest, k) && Collected(rows, lo, hi, rest, res)
    requires !Contains(lo, hi, rows[k].id.index) && Start(lo) <= rows[k].id.index
    ensures Collected(rows, lo, hi, {}, res)
  {
    forall j | j in rest ensures !Contains(lo, hi, rows[j].id.index) {
      KeyOrder(rows[j].id.index, rows[k].id.index);
    }
  }

  /** The iterator begins with everything from the start of the range on. */
  lemma StartsAt(rows: Rows, lo: Bound, hi: Bound)
    requires KeysOk(rows) && Start(lo) < LIMIT
    ensures var rest := From(rows, IdToBin(Start(lo)));
            && (forall k :: k in rest ==> k in rows && Start(lo) <= rows[k].id.index)
            && Collected(rows, lo, hi, rest, [])
  {
    forall k | k in rows ensures k in From(rows, IdToBin(Start(lo))) <==> Start(lo) <= rows[k].id.index {
      KeyOrder(rows[k].id.index, Start(lo));
    }
  }

  lemma CollectedAll(rows: Rows, lo: Bound, hi: Bound, res: seq<Entry>)
    requires KeysOk(rows) && Collected(rows, lo, hi, {}, res)
    ensures forall i: nat :: i < MAX && Contains(lo, hi, i) && At(rows, i).Some? ==> At(rows, i).value in res
    ensures forall e :: e in res ==> Contains(lo, hi, e.id.index) && At(rows, e.id.index) == Some(e)
  {
    forall i: nat | i < MAX && Contains(lo, hi, i) && At(rows, i).Some? ensures At(rows, i).value in res {
      AtIs(rows, i);
    }
  }

  class RocksLogStore {
    var logs: Rows
    var lastPurged: Option<LogId>

    ghost predicate Valid()
      reads this
    {
      KeysOk(logs)
    }

    constructor ()
      ensures Valid() && logs == map[] && lastPurged == None
    {
      logs := map[];
      lastPurged := None;
    }

    method Append(es: seq<Entry>)
      requires Valid() && forall k :: 0 <= k < |es| ==> es[k].id.index < MAX
      modifies this`logs
      ensures Valid()
      ensures forall i: nat :: i < MAX ==>
                At(logs, i) == if LastFor(es, i).Some? then LastFor(es, i) else At(old(logs), i)
    {
      for n := 0 to |es|
        invariant Valid()
        invariant forall i: nat :: i < MAX ==>
                    At(logs, i) == if LastFor(es[..n], i).Some? then LastFor(es[..n], i) else At(old(logs), i)
      {
        assert es[..n + 1][..n] == es[..n];
        ghost var prev := logs;
        var key := IdToBin(es[n].id.index);
        logs := logs[key := es[n]];
        forall i: nat | i < MAX ensures At(logs, i) == if i == es[n].id.index then Some(es[n]) else At(prev, i) {
          KeyOrder(i, es[n].id.index);
        }
      }
      assert es[..|es|] == es;
    }

    /** Deletes the entries from `id` on. */
    method Truncate(id: LogId)
      requires Valid() && id.index < MAX
      modifies this`logs
      ensures Valid()
      ensures forall i: nat :: i < MAX ==> At(logs, i) == if id.index <= i then None else At(old(logs), i)
    {
      ghost var prev := logs;
      logs := DeleteRange(logs, IdToBin(id.index), IdToBin(MAX));
      forall i: nat | i < MAX ensures At(logs, i) == if id.index <= i then None else At(prev, i) {
        DeleteRangeIs(prev, id.index, MAX, i);
      }
    }

    /** Records `id` as purged, then deletes the entries up to it. */
    method Purge(id: LogId)
      requires Valid() && id.index < MAX
      modifies this`logs, this`lastPurged
      ensures Valid() && lastPurged == Some(id)
      ensures forall i: nat :: i < MAX ==> At(logs, i) == if i <= id.index then None else At(old(logs), i)
    {
      ghost var prev := logs;
      lastPurged := Some(id);
      logs := DeleteRange(logs, IdToBin(0), IdToBin(id.index + 1));
      forall i: nat | i < MAX ensures At(logs, i) == if i <= id.index then None else At(prev, i) {
        DeleteRangeIs(prev, 0, id.index + 1, i);
      }
    }

    /** Exactly the entries of a range, in ascending order. */
    method TryGetLogEntries(lo: Bound, hi: Bound) returns (res: seq<Entry>)
      requires Valid() && Start(lo) < LIMIT
      ensures forall a, b :: 0 <= a < b < |res| ==> res[a].id.index < res[b].id.index
      ensures forall i: nat :: i < MAX && Contains(lo, hi, i) && At(logs, i).Some? ==> At(logs, i).value in res
      ensures forall e :: e in res ==> Contains(lo, hi, e.id.index) && At(logs, e.id.index) == Some(e)
    {
      hide IsRow, KeyLt, IdToBin;
      res := [];
      var rest := From(logs, IdToBin(Start(lo)));
      StartsAt(logs, lo, hi);
      while rest != {}
        invariant rest <= logs.Keys && Collected(logs, lo, hi, rest, res)
        invariant forall k :: k in rest ==> Start(lo) <= logs[k].id.index
        decreases |rest|
      {
        ForemostExists(logs, rest);
        var k :| Foremost(rest, k);
        RowIs(logs, k);
        if !Contains(lo, hi, BinToId(k)) {
          CollectEnd(logs, lo, hi, rest, res, k);
          rest := {};
          break;
        }
        CollectNext(logs, lo, hi, rest, res, k);
        res := res + [logs[k]];
        rest := rest - {k};
      }
      CollectedAll(logs, lo, hi, res);
    }

    /** The id of the last entry, or the last purged id when there is none. */
    method GetLogState() returns (purged: Option<LogId>, last: Option<LogId>)
      requires Valid()
      ensures purged == lastPurged
      ensures logs == map[] ==> last == lastPurged
      ensures logs != map[] ==> exists e :: IsRow(logs, e) && last == Some(e.id) && IsLast(e)
    {
      purged := lastPurged;
      if logs == map[] {
        return purged, lastPurged;
      }
      HindmostExists(logs, logs.Keys);
      var k :| Hindmost(logs.Keys, k);
      RowIs(logs, k);
      forall j | j in logs ensures logs[j].id.index <= logs[k].id.index {
        KeyOrder(logs[k].id.index, logs[j].id.index);
      }
      last := Some(logs[k].id);
      assert IsRow(logs, logs[k]) && IsLast(logs[k]);
    }

    /** No stored entry has a greater index. */
    ghost predicate IsLast(e: Entry)
      reads this
    {
      forall k :: k in logs ==> logs[k].id.index <= e.id.index
    }
  }
}
