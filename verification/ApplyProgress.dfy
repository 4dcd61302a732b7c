/** Applying committed entries: which ranges are sent to the state machine as the log is accepted,
    submitted and committed. */
module ApplyProgress {
  import opened Ids
  import opened EngineSpec

  /** Apply the entries after `from`, up to and including `upto`. */
  datatype Range = Range(from: Option<LogId>, upto: LogId)

  /** A node, whose accepted log I/O, announced commit and local commit are cursors already, the log
      I/O it has submitted, and what it has sent to be applied. */
  datatype Cursors = Cursors(node: Node, submitted: Option<IoId>, applying: Option<LogId>)
  {
    function Log(): Log { node.log }
    function Accepted(): Option<IoId> { node.accepted }
    function Committed(): Option<LogId> { node.committed }
  }

  predicate SameLeader(c: Cursors) {
    match (c.submitted, c.Accepted())
    case (Some(s), Some(a)) => IoVote(s) == IoVote(a)
    case (None, None) => true
    case _ => false
  }

  /** `next_progress_driven_command`. */
  function NextCommand(c: Cursors): Option<Range> {
    if SameLeader(c) then
      var written := if c.submitted.None? then None else IoLogId(c.submitted.value);
      var upto := OptMin(written, c.Committed());
      if NextIndex(c.applying) < NextIndex(upto) then Some(Range(c.applying, upto.value)) else None
    else None
  }

  // ----- Events -------------------------------------------------------------------

  datatype Event =
    | Accept(io: IoId)
    | Submit(io: IoId)
    | Rewrite(log: Log)
    | Announce(a: Announced)
    | Commit(granted: Option<LogId>)
    | Poll

  predicate InLog(log: Log, id: Option<LogId>) {
    id.Some? ==> id.value.index < |log| && log[id.value.index] == id.value.leader
  }

  /** What the rest of the node guarantees about an event: I/O is submitted in order, the log only
      changes where nothing is committed or written by the present leader, and whatever is committed
      is in the log. */
  ghost predicate Enabled(c: Cursors, e: Event) {
    match e
    case Accept(io) => true
    case Submit(io) =>
      && (c.submitted.Some? ==> !IoLt(io, c.submitted.value))
      && c.Accepted().Some? && !IoLt(c.Accepted().value, io)
      && (IoVote(io) == IoVote(c.Accepted().value) ==> InLog(c.Log(), IoLogId(io)))
    case Rewrite(log) =>
      && Sorted(log)
      && InLog(log, c.Committed()) && InLog(log, c.applying)
      && (c.submitted.Some? && SameLeader(c) ==> InLog(log, IoLogId(c.submitted.value)))
    case Announce(a) => InLog(c.Log(), UpdateCommitted(c.node, a).committed)
    case Commit(granted) => InLog(c.Log(), granted)
    case Poll => true
  }

  function Step(c: Cursors, e: Event): (Cursors, seq<Range>) {
    match e
    case Accept(io) => (c.(node := AcceptLogIo(c.node, io)), [])
    case Submit(io) => (c.(submitted := Some(io)), [])
    case Rewrite(log) => (c.(node := c.node.(log := log)), [])
    case Announce(a) => (c.(node := UpdateCommitted(c.node, a)), [])
    case Commit(granted) => (c.(node := UpdateLocalCommitted(c.node, granted)), [])
    case Poll =>
      var r := NextCommand(c);
      if r.None? then (c, []) else (c.(applying := Some(r.value.upto)), [r.value])
  }

  // ----- Invariant ----------------------------------------------------------------

  ghost predicate Inv(c: Cursors) {
    && Sorted(c.Log())
    && InLog(c.Log(), c.Committed()) && InLog(c.Log(), c.applying)
    && NextIndex(c.applying) <= NextIndex(c.Committed())
    && (c.submitted.Some? ==> c.Accepted().Some? && !IoLt(c.Accepted().value, c.submitted.value))
    && (c.submitted.Some? && SameLeader(c) ==> InLog(c.Log(), IoLogId(c.submitted.value)))
  }

  /** Ids of one log are ordered alike by id and by index. */
  lemma OneLog(log: Log, a: Option<LogId>, b: Option<LogId>)
    requires Sorted(log) && InLog(log, a) && InLog(log, b)
    ensures OptLe(a, b) <==> NextIndex(a) <= NextIndex(b)
  {
    if a.Some? && b.Some? {
      assert a.value.index <= b.value.index ==> Le(log[a.value.index], log[b.value.index]);
      assert b.value.index <= a.value.index ==> Le(log[b.value.index], log[a.value.index]);
    }
  }

  /** The least range still to be applied goes no further than the commit and the submitted log. */
  lemma NextCommandIs(c: Cursors)
    requires Inv(c) && NextCommand(c).Some?
    ensures var r := NextCommand(c).value;
            && r.from == c.applying && NextIndex(r.from) <= r.upto.index && InLog(c.Log(), Some(r.upto))
            && c.submitted.Some? && OptLe(Some(r.upto), c.Committed()) && OptLe(Some(r.upto), IoLogId(c.submitted.value))
            && r.upto.index < NextIndex(c.Committed()) && r.upto.index < NextIndex(IoLogId(c.submitted.value))
  {
    OneLog(c.Log(), Some(NextCommand(c).value.upto), c.Committed());
    OneLog(c.Log(), Some(NextCommand(c).value.upto), IoLogId(c.submitted.value));
    OneLog(c.Log(), c.Committed(), IoLogId(c.submitted.value));
  }

  /** Index `i` is committed, and written by I/O that was submitted under the vote under which the last was accepted. */
  ghost predicate Applicable(c: Cursors, i: nat) {
    && c.submitted.Some? && c.Accepted().Some? && c.submitted.value.LogIo? && c.Accepted().value.LogIo?
    && c.submitted.value.leader == c.Accepted().value.leader
    && c.submitted.value.logId.Some? && i <= c.submitted.value.logId.value.index
    && c.Committed().Some? && i <= c.Committed().value.index
  }

  /** There is nothing to apply exactly when everything applicable has been sent already. */
  lemma NothingLeft(c: Cursors)
    requires Inv(c)
    ensures NextCommand(c).None? <==> forall i: nat :: Applicable(c, i) ==> i < NextIndex(c.applying)
  {
    if c.submitted.Some? && c.Accepted().Some? && IoVote(c.submitted.value) == IoVote(c.Accepted().value) {
      var written := IoLogId(c.submitted.value);
      OneLog(c.Log(), written, c.Committed());
      if NextCommand(c).Some? {
        assert Applicable(c, NextCommand(c).value.upto.index);
      }
    }
  }

  /** A command takes everything applicable, and nothing else. */
  lemma TakesAll(c: Cursors, i: nat)
    requires Inv(c) && NextCommand(c).Some?
    ensures Holds(NextCommand(c).value, i) <==> Applicable(c, i) && i >= NextIndex(c.applying)
  {
    NextCommandIs(c);
    OneLog(c.Log(), IoLogId(c.submitted.value), c.Committed());
  }

  lemma StepKeeps(c: Cursors, e: Event)
    requires Inv(c) && Enabled(c, e)
    ensures var (c', rs) := Step(c, e);
            && Inv(c')
            && OptLe(c.Committed(), c'.Committed()) && NextIndex(c.Committed()) <= NextIndex(c'.Committed())
            && Tiles(rs, c.applying, c'.applying)
  {
    var (c', rs) := Step(c, e);
    if e.Announce? || e.Commit? {
      OneLog(c.Log(), c.Committed(), c'.Committed());
    }
    if e.Poll? && NextCommand(c).Some? {
      NextCommandIs(c);
      assert rs[..0] == [];
    }
  }

  /** A commit taken from a leader is at most what it announced and what this node has accepted. */
  lemma CommitIsSmaller(n: Node, a: Announced)
    ensures var n' := UpdateCommitted(n, a);
            n'.committed != n.committed ==>
              && n'.announced.Some? && OptLe(n'.committed, n'.announced.value.logId)
              && n'.accepted.Some? && OptLe(n'.committed, IoLogId(n'.accepted.value))
              && Le(n'.announced.value.leader, n'.accepted.value.leader)
  {
  }

  // ----- Runs ---------------------------------------------------------------------

  /** Ranges from `first` on, each beginning where the one before it ends, none empty. */
  ghost predicate Tiles(rs: seq<Range>, first: Option<LogId>, last: Option<LogId>) {
    if |rs| == 0 then first == last
    else
      var r := rs[|rs| - 1];
      Some(r.upto) == last && NextIndex(r.from) <= r.upto.index && Tiles(rs[..|rs| - 1], first, r.from)
  }

  ghost predicate Holds(r: Range, i: nat) {
    NextIndex(r.from) <= i <= r.upto.index
  }

  /** Every index between the ends is in exactly one range, and no other index is in any. */
  lemma {:induction false} TilesCover(rs: seq<Range>, first: Option<LogId>, last: Option<LogId>, i: nat)
    requires Tiles(rs, first, last)
    ensures NextIndex(first) <= NextIndex(last)
    ensures NextIndex(first) <= i < NextIndex(last) <==> exists k :: 0 <= k < |rs| && Holds(rs[k], i)
    ensures forall j, k :: 0 <= j < |rs| && 0 <= k < |rs| && Holds(rs[j], i) && Holds(rs[k], i) ==> j == k
    decreases |rs|
  {
    if |rs| > 0 {
      var init, r := rs[..|rs| - 1], rs[|rs| - 1];
      TilesCover(init, first, r.from, i);
      if NextIndex(first) <= i < NextIndex(r.from) {
        var k :| 0 <= k < |init| && Holds(init[k], i);
        assert rs[k] == init[k];
      }
      assert forall k :: 0 <= k < |init| ==> rs[k] == init[k];
      assert Holds(rs[|rs| - 1], i) <==> NextIndex(r.from) <= i < NextIndex(last);
    }
  }

  lemma {:induction false} TilesJoin(a: seq<Range>, b: seq<Range>, x: Option<LogId>, y: Option<LogId>, z: Option<LogId>)
    requires Tiles(a, x, y) && Tiles(b, y, z)
    ensures Tiles(a + b, x, z)
    decreases |b|
  {
    if |b| == 0 {
      assert a + b == a;
    } else {
      TilesJoin(a, b[..|b| - 1], x, y, b[|b| - 1].from);
      assert (a + b)[..|a + b| - 1] == a + b[..|b| - 1];
    }
  }

  function Run(c: Cursors, es: seq<Event>): (Cursors, seq<Range>)
    decreases |es|
  {
    if |es| == 0 then (c, [])
    else
      var (c1, rs) := Step(c, es[0]);
      var (c2, more) := Run(c1, es[1..]);
      (c2, rs + more)
  }

  ghost predicate RunEnabled(c: Cursors, es: seq<Event>)
    decreases |es|
  {
    |es| > 0 ==> Enabled(c, es[0]) && RunEnabled(Step(c, es[0]).0, es[1..])
  }

  /** Over every run the applied ranges follow each other without a gap or an overlap, never pass the
      local commit, and the local commit never goes back. */
  lemma {:induction false} RunTiles(c: Cursors, es: seq<Event>)
    requires Inv(c) && RunEnabled(c, es)
    ensures var (c', rs) := Run(c, es);
            && Inv(c') && Tiles(rs, c.applying, c'.applying)
            && NextIndex(c'.applying) <= NextIndex(c'.Committed())
            && NextIndex(c.Committed()) <= NextIndex(c'.Committed())
    decreases |es|
  {
    if |es| > 0 {
      var (c1, rs) := Step(c, es[0]);
      StepKeeps(c, es[0]);
      RunTiles(c1, es[1..]);
      var (c2, more) := Run(c1, es[1..]);
      TilesJoin(rs, more, c.applying, c1.applying, c2.applying);
    }
  }

  // ----- The polling loop ---------------------------------------------------------

  class Applier {
    var cursors: Cursors
    /** Commands sent to the state machine so far. */
    var sent: seq<Range>

    constructor (c: Cursors)
      ensures cursors == c && sent == []
    {
      cursors := c;
      sent := [];
    }

    /** `run_progress_driven_command`: polls until nothing is left to do, which is one command at most. */
    method RunProgressDriven()
      requires Inv(cursors)
      modifies this
      ensures Inv(cursors) && NextCommand(cursors).None?
      ensures forall i: nat :: Applicable(cursors, i) ==> i < NextIndex(cursors.applying)
      ensures cursors == Step(old(cursors), Poll).0
      ensures sent == old(sent) + Step(old(cursors), Poll).1
    {
      while true
        invariant Inv(cursors)
        invariant (cursors == old(cursors) && sent == old(sent))
               || (NextCommand(cursors).None? && cursors == Step(old(cursors), Poll).0
                   && sent == old(sent) + Step(old(cursors), Poll).1)
        decreases NextIndex(cursors.Committed()) - NextIndex(cursors.applying)
      {
        var cmd := NextCommand(cursors);
        NothingLeft(cursors);
        if cmd.None? {
          break;
        }
        NextCommandIs(cursors);
        StepKeeps(cursors, Poll);
        cursors := cursors.(applying := Some(cmd.value.upto));
        sent := sent + [cmd.value];
      }
    }
  }
}
