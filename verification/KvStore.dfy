/** The key-value state machine and its snapshots. */
module KvStore {
  import opened Ids

  datatype Request = Put(key: string, value: string) | Del(key: string)

  datatype Payload = Blank | Normal(req: Request) | SetMembership(config: nat)

  datatype Entry = Entry(id: LogId, payload: Payload)

  type Kvs = map<string, string>

  /** `last_membership`: the id of its entry, and the config. */
  datatype Stored = Stored(id: Option<LogId>, config: nat)

  datatype Machine = Machine(lastApplied: Option<LogId>, membership: Stored, kvs: Kvs)

  const EMPTY := Machine(None, Stored(None, 0), map[])

  // ----- Applying entries ---------------------------------------------------------

  function ApplyKvs(kvs: Kvs, p: Payload): Kvs {
    match p
    case Normal(Put(k, v)) => kvs[k := v]
    case Normal(Del(k)) => kvs - {k}
    case _ => kvs
  }

  function ApplyOne(m: Machine, e: Entry): Machine {
    Machine(
      Some(e.id),
      if e.payload.SetMembership? then Stored(Some(e.id), e.payload.config) else m.membership,
      ApplyKvs(m.kvs, e.payload))
  }

  /** What the client is told: the value put, that a key was deleted, or nothing for entries that are no requests. */
  ghost predicate Answers(r: Option<string>, p: Payload) {
    match p
    case Normal(Put(_, v)) => r == Some(v)
    case Normal(Del(_)) => r == Some("Ok")
    case _ => r == None
  }

  function Apply(m: Machine, es: seq<Entry>): Machine {
    if |es| == 0 then m else ApplyOne(Apply(m, es[..|es| - 1]), es[|es| - 1])
  }

  lemma {:induction false} ApplyJoin(m: Machine, a: seq<Entry>, b: seq<Entry>)
    ensures Apply(m, a + b) == Apply(Apply(m, a), b)
    decreases |b|
  {
    if |b| == 0 {
      assert a + b == a;
    } else {
      ApplyJoin(m, a, b[..|b| - 1]);
      assert (a + b)[..|a + b| - 1] == a + b[..|b| - 1];
    }
  }

  // ----- What entries leave at a key ----------------------------------------------

  /** The last thing `es` did to `key`: nothing, or leaving it with or without a value. */
  function LastWrite(es: seq<Entry>, key: string): Option<Option<string>> {
    if |es| == 0 then None
    else
      match es[|es| - 1].payload
      case Normal(Put(k, v)) => if k == key then Some(Some(v)) else LastWrite(es[..|es| - 1], key)
      case Normal(Del(k)) => if k == key then Some(None) else LastWrite(es[..|es| - 1], key)
      case _ => LastWrite(es[..|es| - 1], key)
  }

  function Get(kvs: Kvs, key: string): Option<string> {
    if key in kvs then Some(kvs[key]) else None
  }

  lemma {:induction false} LastWriteIs(m: Machine, es: seq<Entry>, key: string)
    ensures Get(Apply(m, es).kvs, key) ==
            if LastWrite(es, key).Some? then LastWrite(es, key).value else Get(m.kvs, key)
    decreases |es|
  {
    if |es| > 0 {
      LastWriteIs(m, es[..|es| - 1], key);
    }
  }

  lemma {:induction false} PrefixWrites(es: seq<Entry>, i: nat, key: string)
    requires i <= |es| && LastWrite(es, key).None?
    ensures LastWrite(es[..i], key).None?
    decreases |es|
  {
    if i < |es| {
      PrefixWrites(es[..|es| - 1], i, key);
      assert es[..|es| - 1][..i] == es[..i];
    } else {
      assert es[..i] == es;
    }
  }

  /** Applying entries to a map that already holds the effect of some first ones of them gives the
      same map as applying them once. */
  lemma ReplayMap(m: Machine, es: seq<Entry>, i: nat)
    requires i <= |es|
    ensures Apply(Apply(m, es[..i]), es).kvs == Apply(m, es).kvs
  {
    var a, b := Apply(Apply(m, es[..i]), es).kvs, Apply(m, es).kvs;
    forall key ensures Get(a, key) == Get(b, key) {
      LastWriteIs(Apply(m, es[..i]), es, key);
      LastWriteIs(m, es, key);
      LastWriteIs(m, es[..i], key);
      if LastWrite(es, key).None? {
        PrefixWrites(es, i, key);
      }
    }
    SameGets(a, b);
  }

  lemma SameGets(a: Kvs, b: Kvs)
    requires forall key :: Get(a, key) == Get(b, key)
    ensures a == b
  {
    assert forall key :: key in a <==> Get(a, key).Some?;
    assert forall key :: key in b <==> Get(b, key).Some?;
    assert forall key :: key in a ==> a[key] == Get(a, key).value && b[key] == Get(b, key).value;
  }

  /** Neither the last id nor the membership depends on the map. */
  lemma {:induction false} MapApart(m: Machine, kvs: Kvs, es: seq<Entry>)
    ensures Apply(m.(kvs := kvs), es).lastApplied == Apply(m, es).lastApplied
    ensures Apply(m.(kvs := kvs), es).membership == Apply(m, es).membership
    ensures Apply(m.(kvs := kvs), es).kvs == Apply(Machine(None, Stored(None, 0), kvs), es).kvs
    decreases |es|
  {
    if |es| > 0 {
      MapApart(m, kvs, es[..|es| - 1]);
    }
  }

  /** The last entry of `es` that sets the membership. */
  ghost predicate LastConfigAt(es: seq<Entry>, k: nat) {
    k < |es| && es[k].payload.SetMembership? && forall i :: k < i < |es| ==> !es[i].payload.SetMembership?
  }

  /** The last id is that of the last entry, and the membership that of the last entry that sets one, with its id. */
  lemma {:induction false} LabelIs(m: Machine, es: seq<Entry>)
    ensures Apply(m, es).lastApplied == if |es| == 0 then m.lastApplied else Some(es[|es| - 1].id)
    ensures forall k: nat :: LastConfigAt(es, k) ==> Apply(m, es).membership == Stored(Some(es[k].id), es[k].payload.config)
    ensures (forall i :: 0 <= i < |es| ==> !es[i].payload.SetMembership?) ==> Apply(m, es).membership == m.membership
    decreases |es|
  {
    if |es| > 0 {
      var init := es[..|es| - 1];
      LabelIs(m, init);
      forall k: nat | LastConfigAt(es, k) ensures Apply(m, es).membership == Stored(Some(es[k].id), es[k].payload.config) {
        assert k < |init| ==> LastConfigAt(init, k);
      }
    }
  }

  // ----- Snapshots ----------------------------------------------------------------

  /** A snapshot: the last id and membership its builder copied, and the map it found. */
  datatype Snapshot = Snapshot(last: Option<LogId>, membership: Stored, kvs: Kvs, id: (Option<LogId>, nat))

  function Install(s: Snapshot): Machine {
    Machine(s.last, s.membership, s.kvs)
  }

  /** A builder made after `j` entries that reads the map after `k`. */
  function BuiltLate(log: seq<Entry>, j: nat, k: nat, number: nat): Snapshot
    requires j <= k <= |log|
  {
    var at := Apply(EMPTY, log[..j]);
    Snapshot(at.lastApplied, at.membership, Apply(EMPTY, log[..k]).kvs, (at.lastApplied, number))
  }

  /** A snapshot labelled with `j` whose map is already at `k`, followed by the entries from `j` on up to
      any point not before `k`, is the state at that point. */
  lemma LateSnapshotReplays(log: seq<Entry>, j: nat, k: nat, n: nat, number: nat)
    requires j <= k <= n <= |log|
    ensures Apply(Install(BuiltLate(log, j, k, number)), log[j..n]) == Apply(EMPTY, log[..n])
  {
    var at, rest := Apply(EMPTY, log[..j]), log[j..n];
    var kvs := Apply(EMPTY, log[..k]).kvs;
    assert log[..j] + rest == log[..n];
    assert log[..j] + rest[..k - j] == log[..k];
    ApplyJoin(EMPTY, log[..j], rest);
    ApplyJoin(EMPTY, log[..j], rest[..k - j]);
    MapApart(at, kvs, rest);
    MapApart(Apply(at, rest[..k - j]), kvs, rest);
    ReplayMap(at, rest, k - j);
    assert Install(BuiltLate(log, j, k, number)) == at.(kvs := kvs);
  }

  /** Before `k` the state is ahead of its label: the map shows an entry that was not replayed. */
  lemma EarlyReplayDiffers()
    ensures var u := LeaderId(1, 0);
            var log := [Entry(LogId(u, 0), Blank), Entry(LogId(u, 1), Normal(Put("k", "v")))];
            Apply(Install(BuiltLate(log, 0, 2, 0)), log[0..1]) != Apply(EMPTY, log[..1])
  {
    var u := LeaderId(1, 0);
    var log := [Entry(LogId(u, 0), Blank), Entry(LogId(u, 1), Normal(Put("k", "v")))];
    assert log[..2] == log && log[..1] == [log[0]] && log[0..1] == [log[0]] && log[..1][..0] == [];
    assert Apply(EMPTY, log[..1]).kvs == map[];
    assert Apply(EMPTY, log).kvs == map["k" := "v"];
    var s := Install(BuiltLate(log, 0, 2, 0));
    assert s.kvs == map["k" := "v"];
    assert Apply(s, log[0..1]).kvs == map["k" := "v"];
    assert "k" in Apply(s, log[0..1]).kvs;
  }

  // ----- The machine and its builder, sharing one map -----------------------------

  class SharedMap {
    var kvs: Kvs

    constructor ()
      ensures kvs == map[]
    {
      kvs := map[];
    }
  }

  class StateMachine {
    var lastApplied: Option<LogId>
    var membership: Stored
    const data: SharedMap
    var snapshotIdx: nat
    var saved: Option<Snapshot>

    ghost function View(): Machine
      reads this, data
    {
      Machine(lastApplied, membership, data.kvs)
    }

    constructor ()
      ensures View() == EMPTY && fresh(data) && saved == None && snapshotIdx == 0
    {
      lastApplied := None;
      membership := Stored(None, 0);
      data := new SharedMap();
      snapshotIdx := 0;
      saved := None;
    }

    /** A copy of everything but the map, which is shared. */
    constructor Clone(from: StateMachine)
      ensures lastApplied == from.lastApplied && membership == from.membership && data == from.data
      ensures snapshotIdx == from.snapshotIdx && saved == from.saved
    {
      lastApplied := from.lastApplied;
      membership := from.membership;
      data := from.data;
      snapshotIdx := from.snapshotIdx;
      saved := from.saved;
    }

    method ApplyEntries(es: seq<Entry>) returns (responses: seq<Option<string>>)
      modifies this`lastApplied, this`membership, data
      ensures View() == Apply(old(View()), es)
      ensures |responses| == |es| && forall k :: 0 <= k < |es| ==> Answers(responses[k], es[k].payload)
    {
      responses := [];
      for i := 0 to |es|
        invariant View() == Apply(old(View()), es[..i])
        invariant |responses| == i && forall k :: 0 <= k < i ==> Answers(responses[k], es[k].payload)
      {
        var e := es[i];
        assert es[..i + 1][..i] == es[..i];
        lastApplied := Some(e.id);
        var response: Option<string> := None;
        match e.payload {
          case Blank =>
          case Normal(req) =>
            match req {
              case Put(key, value) =>
                data.kvs := data.kvs[key := value];
                response := Some(value);
              case Del(key) =>
                data.kvs := data.kvs - {key};
                response := Some("Ok");
            }
          case SetMembership(config) =>
            membership := Stored(Some(e.id), config);
        }
        responses := responses + [response];
      }
      assert es[..|es|] == es;
    }

    method GetSnapshotBuilder() returns (b: StateMachine)
      modifies this`snapshotIdx
      ensures fresh(b) && b.data == data && b.View() == View() == old(View())
      ensures snapshotIdx == old(snapshotIdx) + 1 && b.snapshotIdx == snapshotIdx
    {
      snapshotIdx := snapshotIdx + 1;
      b := new StateMachine.Clone(this);
    }

    /** The label is the builder's own, the map is whatever the shared one holds by now. */
    method BuildSnapshot() returns (s: Snapshot)
      modifies this`saved
      ensures s == Snapshot(lastApplied, membership, data.kvs, (lastApplied, snapshotIdx))
      ensures saved == Some(s) && View() == old(View())
    {
      s := Snapshot(lastApplied, membership, data.kvs, (lastApplied, snapshotIdx));
      saved := Some(s);
    }

    method InstallSnapshot(s: Snapshot)
      modifies this`lastApplied, this`membership, this`saved, data
      ensures View() == Install(s) && saved == Some(s)
    {
      lastApplied := s.last;
      membership := s.membership;
      data.kvs := s.kvs;
      saved := Some(s);
    }
  }

  /** A builder made at `j`, entries applied to the machine up to `k`, the snapshot built then and
      installed on another machine, and the entries from `j` to `n` applied there: the two agree. */
  method SnapshotWhileApplying(log: seq<Entry>, j: nat, k: nat, n: nat) returns (other: StateMachine)
    requires j <= k <= n <= |log|
    ensures other.View() == Apply(EMPTY, log[..n])
  {
    var machine := new StateMachine();
    var r := machine.ApplyEntries(log[..j]);
    var builder := machine.GetSnapshotBuilder();
    r := machine.ApplyEntries(log[j..k]);
    ApplyJoin(EMPTY, log[..j], log[j..k]);
    assert log[..j] + log[j..k] == log[..k];
    var s := builder.BuildSnapshot();
    assert s == BuiltLate(log, j, k, 1);
    other := new StateMachine();
    other.InstallSnapshot(s);
    r := other.ApplyEntries(log[j..n]);
    LateSnapshotReplays(log, j, k, n, 1);
  }
}
