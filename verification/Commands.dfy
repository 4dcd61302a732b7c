/** The command queue between the engine and its runtime: commands run in order, and answers to
    callers wait for the I/O they depend on. */
module Commands {
  import opened Ids
  import opened EngineSpec
  import opened EngineLaws

  /** I/O that has completed. */
  datatype IoState = IoState(logFlushed: Option<IoId>, applied: Option<LogId>, snapshot: Option<LogId>)

  datatype Condition =
    | IOFlushed(io: IoId)
    | LogFlushed(id: LogId)
    | Applied(id: LogId)
    | Snapshot(id: LogId)

  datatype Task =
    | AppendEntries | ReplicateCommitted | BroadcastHeartbeat | SaveCommittedAndApply | Replicate | ReplicateSnapshot
    | BroadcastTransferLeader | RebuildReplicationStreams | SaveVote | SendVote | TruncateLog | StateMachine

  /** Commands with a condition, and tasks that never wait. `arg` stands for what a task carries. */
  datatype Command =
    | UpdateIOProgress(when: Option<Condition>, ioId: IoId)
    | PurgeLog(upto: LogId)
    | Respond(when: Option<Condition>, resp: nat)
    | Run(task: Task, arg: nat)

  /** `condition`. */
  function ConditionOf(c: Command): Option<Condition> {
    match c
    case UpdateIOProgress(when, _) => when
    case PurgeLog(upto) => Some(Snapshot(upto))
    case Respond(when, _) => when
    case Run(_, _) => None
  }

  predicate Reached<T>(actual: Option<T>, expected: T, lt: (T, T) -> bool) {
    actual.Some? && !lt(actual.value, expected)
  }

  /** `is_met`. */
  predicate IsMet(c: Condition, io: IoState) {
    match c
    case IOFlushed(x) => Reached(io.logFlushed, x, (a: IoId, b: IoId) => IoLt(a, b))
    case LogFlushed(id) =>
      Reached(if io.logFlushed.None? then None else IoLogId(io.logFlushed.value), id, (a: LogId, b: LogId) => LogIdLt(a, b))
    case Applied(id) => Reached(io.applied, id, (a: LogId, b: LogId) => LogIdLt(a, b))
    case Snapshot(id) => Reached(io.snapshot, id, (a: LogId, b: LogId) => LogIdLt(a, b))
  }

  predicate Ready(c: Command, io: IoState) {
    ConditionOf(c).None? || IsMet(ConditionOf(c).value, io)
  }

  // ----- The queues ---------------------------------------------------------------

  /** A postponed respond; `when` says which cursor it waits for. */
  datatype Pending = Pending(when: Condition, resp: nat)

  /** The queues, the completed I/O, and everything executed and answered so far. */
  datatype State = State(
    commands: seq<Command>,
    onLogIo: seq<Pending>,
    onLogFlush: seq<Pending>,
    onApply: seq<Pending>,
    onSnapshot: seq<Pending>,
    io: IoState,
    executed: seq<Command>,
    sent: seq<Command>)

  function AsCommand(p: Pending): Command {
    Respond(Some(p.when), p.resp)
  }

  function AsCommands(ps: seq<Pending>): (r: seq<Command>)
    ensures |r| == |ps| && forall k :: 0 <= k < |ps| ==> r[k] == AsCommand(ps[k])
  {
    seq(|ps|, k requires 0 <= k < |ps| => AsCommand(ps[k]))
  }

  /** How many responds at the front of a queue are satisfied. */
  function Satisfied(ps: seq<Pending>, io: IoState): (n: nat)
    ensures n <= |ps|
    ensures forall k :: 0 <= k < n ==> IsMet(ps[k].when, io)
    ensures n < |ps| ==> !IsMet(ps[n].when, io)
  {
    if |ps| == 0 || !IsMet(ps[0].when, io) then 0 else 1 + Satisfied(ps[1..], io)
  }

  /** `drain_satisfied`: the satisfied front of every queue, one queue after the other. */
  function Drain(s: State): State {
    var a, b := Satisfied(s.onLogIo, s.io), Satisfied(s.onLogFlush, s.io);
    var c, d := Satisfied(s.onApply, s.io), Satisfied(s.onSnapshot, s.io);
    s.(onLogIo := s.onLogIo[a..], onLogFlush := s.onLogFlush[b..], onApply := s.onApply[c..], onSnapshot := s.onSnapshot[d..],
       sent := s.sent + AsCommands(s.onLogIo[..a] + s.onLogFlush[..b] + s.onApply[..c] + s.onSnapshot[..d]))
  }

  /** A respond put aside in the queue of its condition. */
  function Postpone(s: State, p: Pending): State {
    match p.when
    case IOFlushed(_) => s.(onLogIo := s.onLogIo + [p])
    case LogFlushed(_) => s.(onLogFlush := s.onLogFlush + [p])
    case Applied(_) => s.(onApply := s.onApply + [p])
    case Snapshot(_) => s.(onSnapshot := s.onSnapshot + [p])
  }

  /** The state after the first command was executed or its answer sent. */
  function Taken(s: State): State
    requires |s.commands| > 0
  {
    var cmd, rest := s.commands[0], s.(commands := s.commands[1..]);
    if cmd.Respond? then rest.(sent := rest.sent + [cmd]) else rest.(executed := rest.executed + [cmd])
  }

  /** The loop of `run_engine_commands`: a command that is not ready stops it, unless it is a respond,
      which is put aside. */
  function RunQueue(s: State): State
    decreases |s.commands|
  {
    if |s.commands| == 0 then s
    else
      var cmd, rest := s.commands[0], s.(commands := s.commands[1..]);
      if Ready(cmd, s.io) then
        RunQueue(Taken(s))
      else if cmd.Respond? then RunQueue(Postpone(rest, Pending(cmd.when.value, cmd.resp)))
      else s
  }

  function RunCommands(s: State): State {
    RunQueue(Drain(s))
  }

  // ----- What is conserved --------------------------------------------------------

  function Responds(cs: seq<Command>): seq<Command> {
    if |cs| == 0 then [] else (if cs[0].Respond? then [cs[0]] else []) + Responds(cs[1..])
  }

  function Others(cs: seq<Command>): seq<Command> {
    if |cs| == 0 then [] else (if cs[0].Respond? then [] else [cs[0]]) + Others(cs[1..])
  }

  function PendingAll(s: State): seq<Pending> {
    s.onLogIo + s.onLogFlush + s.onApply + s.onSnapshot
  }

  /** Every respond that is or was in the system. */
  ghost function AllResponds(s: State): multiset<Command> {
    multiset(s.sent) + multiset(Responds(s.commands)) + multiset(AsCommands(PendingAll(s)))
  }

  /** Every other command, in the order it came. */
  function AllOthers(s: State): seq<Command> {
    s.executed + Others(s.commands)
  }

  lemma AsCommandsJoin(a: seq<Pending>, b: seq<Pending>)
    ensures AsCommands(a + b) == AsCommands(a) + AsCommands(b)
  {
  }

  /** What is left of four queues, and what was taken from them. */
  lemma FourParts(q: seq<Pending>, r: seq<Pending>, t: seq<Pending>, u: seq<Pending>, a: nat, b: nat, c: nat, d: nat)
    requires a <= |q| && b <= |r| && c <= |t| && d <= |u|
    ensures multiset(AsCommands(q + r + t + u)) == multiset(AsCommands(q[..a] + r[..b] + t[..c] + u[..d]))
                                                 + multiset(AsCommands(q[a..] + r[b..] + t[c..] + u[d..]))
  {
    hide AsCommands;
    Parts(q, a);
    Parts(r, b);
    Parts(t, c);
    Parts(u, d);
    Four(q[..a], r[..b], t[..c], u[..d]);
    Four(q[a..], r[b..], t[c..], u[d..]);
    Four(q, r, t, u);
  }

  /** Cutting four queues apart moves no respond. */
  lemma DrainConserves(s: State)
    ensures AllResponds(Drain(s)) == AllResponds(s) && AllOthers(Drain(s)) == AllOthers(s)
  {
    hide AsCommands, Satisfied, Responds, Others;
    FourParts(s.onLogIo, s.onLogFlush, s.onApply, s.onSnapshot, Satisfied(s.onLogIo, s.io),
              Satisfied(s.onLogFlush, s.io), Satisfied(s.onApply, s.io), Satisfied(s.onSnapshot, s.io));
  }

  lemma Parts(ps: seq<Pending>, n: nat)
    requires n <= |ps|
    ensures multiset(AsCommands(ps)) == multiset(AsCommands(ps[..n])) + multiset(AsCommands(ps[n..]))
  {
    assert ps == ps[..n] + ps[n..];
    AsCommandsJoin(ps[..n], ps[n..]);
  }

  lemma Four(a: seq<Pending>, b: seq<Pending>, c: seq<Pending>, d: seq<Pending>)
    ensures multiset(AsCommands(a + b + c + d))
         == multiset(AsCommands(a)) + multiset(AsCommands(b)) + multiset(AsCommands(c)) + multiset(AsCommands(d))
  {
    AsCommandsJoin(a, b);
    AsCommandsJoin(a + b, c);
    AsCommandsJoin(a + b + c, d);
  }

  lemma QueueMore(ps: seq<Pending>, p: Pending)
    ensures multiset(AsCommands(ps + [p])) == multiset(AsCommands(ps)) + multiset{AsCommand(p)}
  {
    assert AsCommands([p]) == [AsCommand(p)];
    AsCommandsJoin(ps, [p]);
  }

  lemma OneOfFour(a: multiset<Command>, b: multiset<Command>, c: multiset<Command>, d: multiset<Command>, x: multiset<Command>)
    ensures (a + x) + b + c + d == a + b + c + d + x
    ensures a + (b + x) + c + d == a + b + c + d + x
    ensures a + b + (c + x) + d == a + b + c + d + x
    ensures a + b + c + (d + x) == a + b + c + d + x
  {
  }

  lemma PostponedPending(s: State, p: Pending)
    ensures multiset(AsCommands(PendingAll(Postpone(s, p)))) == multiset(AsCommands(PendingAll(s))) + multiset{AsCommand(p)}
  {
    hide AsCommands;
    var s' := Postpone(s, p);
    Four(s.onLogIo, s.onLogFlush, s.onApply, s.onSnapshot);
    Four(s'.onLogIo, s'.onLogFlush, s'.onApply, s'.onSnapshot);
    OneOfFour(multiset(AsCommands(s.onLogIo)), multiset(AsCommands(s.onLogFlush)), multiset(AsCommands(s.onApply)),
              multiset(AsCommands(s.onSnapshot)), multiset{AsCommand(p)});
    match p.when {
      case IOFlushed(_) => QueueMore(s.onLogIo, p);
      case LogFlushed(_) => QueueMore(s.onLogFlush, p);
      case Applied(_) => QueueMore(s.onApply, p);
      case Snapshot(_) => QueueMore(s.onSnapshot, p);
    }
  }

  lemma PostponeConserves(s: State, p: Pending)
    ensures AllResponds(Postpone(s, p)) == AllResponds(s) + multiset{AsCommand(p)}
    ensures AllOthers(Postpone(s, p)) == AllOthers(s)
  {
    hide AsCommands, Responds, Others, PendingAll;
    PostponedPending(s, p);
    OneMore(multiset(s.sent), multiset(Responds(s.commands)), multiset(AsCommands(PendingAll(s))), AsCommand(p));
  }

  lemma More(cs: seq<Command>, c: Command)
    ensures multiset(cs + [c]) == multiset(cs) + multiset{c} && multiset([c] + cs) == multiset(cs) + multiset{c}
  {
  }

  /** Adding `c` to any of three parts adds it to the whole. */
  lemma OneMore(x: multiset<Command>, y: multiset<Command>, z: multiset<Command>, c: Command)
    ensures x + (y + multiset{c}) + z == x + y + z + multiset{c}
    ensures (x + multiset{c}) + y + z == x + y + z + multiset{c}
    ensures x + y + (z + multiset{c}) == x + y + z + multiset{c}
  {
  }

  lemma FirstIs(cs: seq<Command>)
    requires |cs| > 0
    ensures Responds(cs) == if cs[0].Respond? then [cs[0]] + Responds(cs[1..]) else Responds(cs[1..])
    ensures Others(cs) == if cs[0].Respond? then Others(cs[1..]) else [cs[0]] + Others(cs[1..])
  {
  }

  lemma TakenConserves(s: State)
    requires |s.commands| > 0
    ensures AllResponds(Taken(s)) == AllResponds(s) && AllOthers(Taken(s)) == AllOthers(s)
  {
    hide AsCommands, Responds, Others;
    var cmd, rest := s.commands[0], s.commands[1..];
    FirstIs(s.commands);
    if cmd.Respond? {
      More(s.sent, cmd);
      More(Responds(rest), cmd);
      OneMore(multiset(s.sent), multiset(Responds(rest)), multiset(AsCommands(PendingAll(s))), cmd);
    } else {
      assert s.executed + [cmd] + Others(rest) == s.executed + ([cmd] + Others(rest));
    }
  }

  /** Putting the first command aside moves it from one place to another. */
  lemma PutAsideConserves(s: State)
    requires |s.commands| > 0 && s.commands[0].Respond? && s.commands[0].when.Some?
    ensures var s' := Postpone(s.(commands := s.commands[1..]), Pending(s.commands[0].when.value, s.commands[0].resp));
            AllResponds(s') == AllResponds(s) && AllOthers(s') == AllOthers(s)
  {
    hide AsCommands, Postpone, Responds, Others;
    var cmd, rest := s.commands[0], s.(commands := s.commands[1..]);
    PostponeConserves(rest, Pending(cmd.when.value, cmd.resp));
    FirstIs(s.commands);
    More(Responds(rest.commands), cmd);
    OneMore(multiset(s.sent), multiset(Responds(rest.commands)), multiset(AsCommands(PendingAll(s))), cmd);
  }

  lemma {:induction false} RunQueueConserves(s: State)
    ensures AllResponds(RunQueue(s)) == AllResponds(s) && AllOthers(RunQueue(s)) == AllOthers(s)
    ensures RunQueue(s).io == s.io
    decreases |s.commands|
  {
    hide AllResponds, AllOthers;
    if |s.commands| > 0 {
      var cmd := s.commands[0];
      if Ready(cmd, s.io) {
        TakenConserves(s);
        RunQueueConserves(Taken(s));
      } else if cmd.Respond? {
        PutAsideConserves(s);
        RunQueueConserves(Postpone(s.(commands := s.commands[1..]), Pending(cmd.when.value, cmd.resp)));
      }
    }
  }

  // ----- Completed I/O ------------------------------------------------------------

  /** I/O completes in order: log I/O in the order of `IOId`, the others by log id. */
  ghost predicate IoLe(a: IoState, b: IoState) {
    && (a.logFlushed.Some? ==> b.logFlushed.Some? && !IoLt(b.logFlushed.value, a.logFlushed.value))
    && OptLe(a.applied, b.applied) && OptLe(a.snapshot, b.snapshot)
  }

  function LogPart(a: IoState): Option<LogId> {
    if a.logFlushed.None? then None else IoLogId(a.logFlushed.value)
  }

  lemma MetStays(c: Condition, a: IoState, b: IoState)
    requires IoLe(a, b) && IsMet(c, a) && !c.LogFlushed?
    ensures IsMet(c, b)
  {
  }

  /** A flush under a later vote makes the node forget how far its log was flushed. */
  lemma LaterVoteForgets(a: IoState, id: LogId, v: LeaderId)
    requires a.logFlushed.Some? && Lt(a.logFlushed.value.leader, v)
    ensures var b, c := a.(logFlushed := Some(VoteIo(v))), a.(logFlushed := Some(LogIo(v, None)));
            IoLe(a, b) && !IsMet(LogFlushed(id), b) && IoLe(a, c) && !IsMet(LogFlushed(id), c)
  {
  }

  /** A condition that is met stays met, whatever completes after it, if and only if it does not wait for a log
      id to be flushed. */
  lemma StaysMet(c: Condition, a: IoState)
    requires IsMet(c, a)
    ensures (forall b :: IoLe(a, b) ==> IsMet(c, b)) <==> !c.LogFlushed?
  {
    if c.LogFlushed? {
      var v := LeaderId(a.logFlushed.value.leader.term + 1, 0);
      LaterVoteForgets(a, c.id, v);
      var b := a.(logFlushed := Some(VoteIo(v)));
      assert IoLe(a, b) && !IsMet(c, b);
    } else {
      forall b | IoLe(a, b) ensures IsMet(c, b) {
        MetStays(c, a, b);
      }
    }
  }

  /** A met wait for a log id is still met as long as the flushed vote is the same, and under a later vote once
      I/O of that vote ends at or above the id. */
  lemma LogFlushedStays(id: LogId, a: IoState, b: IoState)
    requires IoLe(a, b) && IsMet(LogFlushed(id), a)
    ensures IsMet(LogFlushed(id), b) <==>
              IoVote(b.logFlushed.value) == IoVote(a.logFlushed.value) || OptLe(Some(id), LogPart(b))
  {
  }

  // ----- When responds are sent and commands run ----------------------------------

  /** The I/O the condition awaits is done: what was flushed, applied or built is not before it. */
  ghost predicate Done(c: Condition, io: IoState) {
    match c
    case IOFlushed(x) => io.logFlushed.Some? && NoLater(x, io.logFlushed.value)
    case LogFlushed(id) => io.logFlushed.Some? && io.logFlushed.value.LogIo? && OptLe(Some(id), io.logFlushed.value.logId)
    case Applied(id) => OptLe(Some(id), io.applied)
    case Snapshot(id) => OptLe(Some(id), io.snapshot)
  }

  lemma MetIsDone(c: Condition, io: IoState)
    ensures IsMet(c, io) <==> Done(c, io)
  {
  }

  /** Nothing holds the command back: a respond or a progress update whose own wait is over, a purge of what a snapshot
      has, or a task. */
  ghost predicate MayGo(c: Command, io: IoState) {
    match c
    case UpdateIOProgress(when, _) => when.Some? ==> Done(when.value, io)
    case PurgeLog(upto) => OptLe(Some(upto), io.snapshot)
    case Respond(when, _) => when.Some? ==> Done(when.value, io)
    case Run(_, _) => true
  }

  lemma ReadyMayGo(c: Command, io: IoState)
    ensures Ready(c, io) <==> MayGo(c, io)
  {
  }

  /** Only responds were sent and only other commands executed, and nothing held any of them back. */
  ghost predicate Goes(s: State, s': State) {
    && s.sent <= s'.sent && s.executed <= s'.executed && s'.io == s.io
    && (forall k :: |s.sent| <= k < |s'.sent| ==> s'.sent[k].Respond? && MayGo(s'.sent[k], s.io))
    && forall k :: |s.executed| <= k < |s'.executed| ==> !s'.executed[k].Respond? && MayGo(s'.executed[k], s.io)
  }

  lemma GoesChain(s: State, t: State, u: State)
    requires Goes(s, t) && Goes(t, u)
    ensures Goes(s, u)
  {
    hide MayGo;
  }

  lemma DrainGoes(s: State)
    ensures Goes(s, Drain(s))
  {
    hide IsMet, Done, Satisfied;
    var a, b := Satisfied(s.onLogIo, s.io), Satisfied(s.onLogFlush, s.io);
    var c, d := Satisfied(s.onApply, s.io), Satisfied(s.onSnapshot, s.io);
    var out := s.onLogIo[..a] + s.onLogFlush[..b] + s.onApply[..c] + s.onSnapshot[..d];
    forall k | 0 <= k < |out| ensures Done(out[k].when, s.io) {
      MetIsDone(out[k].when, s.io);
      if k >= a + b + c {
        assert out[k] == s.onSnapshot[k - (a + b + c)];
      } else if k >= a + b {
        assert out[k] == s.onApply[k - (a + b)];
      } else if k >= a {
        assert out[k] == s.onLogFlush[k - a];
      } else {
        assert out[k] == s.onLogIo[k];
      }
    }
  }

  /** The first `n` of `ps`, and no more, have what they await. */
  ghost predicate FrontDone(ps: seq<Pending>, n: nat, io: IoState) {
    n <= |ps| && (forall k :: 0 <= k < n ==> Done(ps[k].when, io)) && (n < |ps| ==> !Done(ps[n].when, io))
  }

  /** The fronts of the queues for flushed I/O, flushed logs, applied entries and snapshots, `a`, `b`, `c` and `d` of
      them, are answered in this order, and nothing else changes. */
  ghost predicate DrainedBy(s: State, t: State, a: nat, b: nat, c: nat, d: nat) {
    && FrontDone(s.onLogIo, a, s.io) && FrontDone(s.onLogFlush, b, s.io)
    && FrontDone(s.onApply, c, s.io) && FrontDone(s.onSnapshot, d, s.io)
    && t.onLogIo == s.onLogIo[a..] && t.onLogFlush == s.onLogFlush[b..]
    && t.onApply == s.onApply[c..] && t.onSnapshot == s.onSnapshot[d..]
    && t.commands == s.commands && t.executed == s.executed && t.io == s.io
    && t.sent == s.sent + AsCommands(s.onLogIo[..a]) + AsCommands(s.onLogFlush[..b])
                 + AsCommands(s.onApply[..c]) + AsCommands(s.onSnapshot[..d])
  }

  /** Draining answers the front of each queue in turn, as far as nothing is awaited. */
  lemma DrainsInTurn(s: State)
    ensures exists a: nat, b: nat, c: nat, d: nat :: DrainedBy(s, Drain(s), a, b, c, d)
  {
    hide AsCommands, Done, IsMet, FrontDone, Satisfied;
    var a, b := Satisfied(s.onLogIo, s.io), Satisfied(s.onLogFlush, s.io);
    var c, d := Satisfied(s.onApply, s.io), Satisfied(s.onSnapshot, s.io);
    FrontIs(s.onLogIo, s.io);
    FrontIs(s.onLogFlush, s.io);
    FrontIs(s.onApply, s.io);
    FrontIs(s.onSnapshot, s.io);
    AsCommandsJoin(s.onLogIo[..a], s.onLogFlush[..b]);
    AsCommandsJoin(s.onLogIo[..a] + s.onLogFlush[..b], s.onApply[..c]);
    AsCommandsJoin(s.onLogIo[..a] + s.onLogFlush[..b] + s.onApply[..c], s.onSnapshot[..d]);
    SentInTurn(s.sent, AsCommands(s.onLogIo[..a]), AsCommands(s.onLogFlush[..b]), AsCommands(s.onApply[..c]),
               AsCommands(s.onSnapshot[..d]));
    assert DrainedBy(s, Drain(s), a, b, c, d);
  }

  lemma SentInTurn(s: seq<Command>, a: seq<Command>, b: seq<Command>, c: seq<Command>, d: seq<Command>)
    ensures s + (a + b + c + d) == s + a + b + c + d
  {
  }

  lemma FrontIs(ps: seq<Pending>, io: IoState)
    ensures FrontDone(ps, Satisfied(ps, io), io)
  {
    hide IsMet, Done;
    forall k | 0 <= k < |ps| ensures IsMet(ps[k].when, io) <==> Done(ps[k].when, io) {
      MetIsDone(ps[k].when, io);
    }
  }

  lemma {:induction false} RunQueueGoes(s: State)
    ensures Goes(s, RunQueue(s))
    decreases |s.commands|
  {
    hide IsMet, MayGo, Goes;
    if |s.commands| > 0 {
      var cmd, rest := s.commands[0], s.(commands := s.commands[1..]);
      if Ready(cmd, s.io) {
        RunQueueGoes(Taken(s));
        TakenGoes(s);
        GoesChain(s, Taken(s), RunQueue(s));
      } else if cmd.Respond? {
        var t := Postpone(rest, Pending(cmd.when.value, cmd.resp));
        RunQueueGoes(t);
        NothingGoes(s, t);
        GoesChain(s, t, RunQueue(s));
      } else {
        NothingGoes(s, s);
      }
    } else {
      NothingGoes(s, s);
    }
  }

  lemma TakenGoes(s: State)
    requires |s.commands| > 0 && Ready(s.commands[0], s.io)
    ensures Goes(s, Taken(s))
  {
    hide Ready, MayGo;
    ReadyMayGo(s.commands[0], s.io);
  }

  lemma NothingGoes(s: State, t: State)
    requires t.sent == s.sent && t.executed == s.executed && t.io == s.io
    ensures Goes(s, t)
  {
  }

  /** Running commands stops only at one that is no respond and is held back. */
  lemma {:induction false} StopsAtHeldBack(s: State)
    ensures var cs := RunQueue(s).commands; cs != [] ==> !cs[0].Respond? && !MayGo(cs[0], s.io)
    decreases |s.commands|
  {
    hide MayGo, Postpone;
    if |s.commands| > 0 {
      var cmd, rest := s.commands[0], s.(commands := s.commands[1..]);
      ReadyMayGo(cmd, s.io);
      if Ready(cmd, s.io) {
        StopsAtHeldBack(Taken(s));
      } else if cmd.Respond? {
        var p := Pending(cmd.when.value, cmd.resp);
        PostponeKeeps(rest, p);
        StopsAtHeldBack(Postpone(rest, p));
      }
    }
  }

  lemma PostponeKeeps(s: State, p: Pending)
    ensures Postpone(s, p).commands == s.commands && Postpone(s, p).io == s.io
  {
  }

  /** What `RunCommands` does, seen from outside. */
  lemma RunGoes(s: State)
    ensures Goes(s, RunCommands(s))
    ensures var cs := RunCommands(s).commands; cs != [] ==> !cs[0].Respond? && !MayGo(cs[0], s.io)
  {
    hide Drain, RunQueue, MayGo;
    DrainGoes(s);
    RunQueueGoes(Drain(s));
    GoesChain(s, Drain(s), RunQueue(Drain(s)));
    StopsAtHeldBack(Drain(s));
  }

  /** Every respond that is put aside is in the queue of the I/O it awaits. */
  ghost predicate Sorts(s: State) {
    && (forall p :: p in s.onLogIo ==> p.when.IOFlushed?) && (forall p :: p in s.onLogFlush ==> p.when.LogFlushed?)
    && (forall p :: p in s.onApply ==> p.when.Applied?) && (forall p :: p in s.onSnapshot ==> p.when.Snapshot?)
  }

  lemma {:induction false} RunQueueSorts(s: State)
    requires Sorts(s)
    ensures Sorts(RunQueue(s))
    decreases |s.commands|
  {
    hide IsMet;
    if |s.commands| > 0 {
      var cmd, rest := s.commands[0], s.(commands := s.commands[1..]);
      if Ready(cmd, s.io) {
        RunQueueSorts(Taken(s));
      } else if cmd.Respond? {
        RunQueueSorts(Postpone(rest, Pending(cmd.when.value, cmd.resp)));
      }
    }
  }

  lemma DrainSorts(s: State)
    requires Sorts(s)
    ensures Sorts(Drain(s))
  {
    hide AsCommands;
  }

  // ----- Nothing satisfied is left behind -----------------------------------------

  /** A satisfied respond never waits behind one that is not satisfied. */
  ghost predicate InOrder(ps: seq<Pending>, io: IoState) {
    forall i, j :: 0 <= i < j < |ps| && IsMet(ps[j].when, io) ==> IsMet(ps[i].when, io)
  }

  ghost predicate NoneMet(ps: seq<Pending>, io: IoState) {
    forall k :: 0 <= k < |ps| ==> !IsMet(ps[k].when, io)
  }

  ghost predicate NothingMet(s: State) {
    && NoneMet(s.onLogIo, s.io) && NoneMet(s.onLogFlush, s.io) && NoneMet(s.onApply, s.io) && NoneMet(s.onSnapshot, s.io)
  }

  /** Taking the satisfied front leaves no satisfied respond behind exactly when none waits behind an
      unsatisfied one. */
  lemma FrontIsAll(ps: seq<Pending>, io: IoState)
    ensures NoneMet(ps[Satisfied(ps, io)..], io) <==> InOrder(ps, io)
  {
    hide IsMet, Satisfied;
    var n := Satisfied(ps, io);
    var left := ps[n..];
    assert forall k :: n <= k < |ps| ==> ps[k] == left[k - n];
  }

  lemma {:induction false} RunQueueLeavesUnmet(s: State)
    requires NothingMet(s)
    ensures NothingMet(RunQueue(s))
    decreases |s.commands|
  {
    if |s.commands| > 0 {
      var cmd, rest := s.commands[0], s.(commands := s.commands[1..]);
      if Ready(cmd, s.io) {
        RunQueueLeavesUnmet(Taken(s));
      } else if cmd.Respond? {
        RunQueueLeavesUnmet(Postpone(rest, Pending(cmd.when.value, cmd.resp)));
      }
    }
  }

  /** After running commands no satisfied respond is still put aside, provided that none waits behind an
      unsatisfied one of its queue. */
  lemma NoneLeftBehind(s: State)
    requires InOrder(s.onLogIo, s.io) && InOrder(s.onLogFlush, s.io) && InOrder(s.onApply, s.io) && InOrder(s.onSnapshot, s.io)
    ensures NothingMet(RunCommands(s))
  {
    FrontIsAll(s.onLogIo, s.io);
    FrontIsAll(s.onLogFlush, s.io);
    FrontIsAll(s.onApply, s.io);
    FrontIsAll(s.onSnapshot, s.io);
    RunQueueLeavesUnmet(Drain(s));
  }

  /** Waits that never decrease along a queue keep it in that order, whatever I/O completes. */
  lemma AscendingIsInOrder(ps: seq<Pending>, io: IoState)
    requires forall i, j :: 0 <= i < j < |ps| ==> WaitLe(ps[i].when, ps[j].when)
    ensures InOrder(ps, io)
  {
  }

  /** Two conditions on the same cursor, the first not above the second. */
  ghost predicate WaitLe(a: Condition, b: Condition) {
    match (a, b)
    case (IOFlushed(x), IOFlushed(y)) => !IoLt(y, x)
    case (LogFlushed(x), LogFlushed(y)) => LogIdLe(x, y)
    case (Applied(x), Applied(y)) => LogIdLe(x, y)
    case (Snapshot(x), Snapshot(y)) => LogIdLe(x, y)
    case _ => false
  }

  // ----- Runs ---------------------------------------------------------------------

  datatype Event = Push(cmd: Command) | Complete(io: IoState) | RunAll

  function Step(s: State, e: Event): State {
    match e
    case Push(cmd) => s.(commands := s.commands + [cmd])
    case Complete(io) => s.(io := io)
    case RunAll => RunCommands(s)
  }

  function Empty(io: IoState): State {
    State([], [], [], [], [], io, [], [])
  }

  function After(io: IoState, es: seq<Event>): State {
    if |es| == 0 then Empty(io) else Step(After(io, es[..|es| - 1]), es[|es| - 1])
  }

  function Pushed(es: seq<Event>): seq<Command> {
    if |es| == 0 then []
    else Pushed(es[..|es| - 1]) + (if es[|es| - 1].Push? then [es[|es| - 1].cmd] else [])
  }

  lemma {:induction false} SplitMore(cs: seq<Command>, c: Command)
    ensures Others(cs + [c]) == Others(cs) + (if c.Respond? then [] else [c])
    ensures Responds(cs + [c]) == Responds(cs) + (if c.Respond? then [c] else [])
  {
    if |cs| > 0 {
      SplitMore(cs[1..], c);
      assert (cs + [c])[1..] == cs[1..] + [c];
    }
  }

  /** Over any run of pushes, completions and drains: commands other than responds execute in the
      order they were pushed, none lost and none twice; and every respond pushed is sent, put aside or still
      queued, exactly once. */
  lemma {:induction false} QueueSafety(io: IoState, es: seq<Event>)
    ensures var s := After(io, es);
            Others(Pushed(es)) == AllOthers(s) && multiset(Responds(Pushed(es))) == AllResponds(s)
    decreases |es|
  {
    hide AllResponds, AllOthers, Responds, Others, RunCommands;
    if |es| == 0 {
      EmptyConserves(io);
    } else {
      var init, e := es[..|es| - 1], es[|es| - 1];
      var s := After(io, init);
      QueueSafety(io, init);
      assert Pushed(es) == if e.Push? then Pushed(init) + [e.cmd] else Pushed(init);
      match e {
        case Push(cmd) => PushConserves(s, cmd, Pushed(init));
        case Complete(io') => CompleteConserves(s, io');
        case RunAll => RunConserves(s);
      }
    }
  }

  lemma EmptyConserves(io: IoState)
    ensures Others([]) == AllOthers(Empty(io)) && multiset(Responds([])) == AllResponds(Empty(io))
  {
  }

  lemma PushConserves(s: State, cmd: Command, pushed: seq<Command>)
    requires Others(pushed) == AllOthers(s) && multiset(Responds(pushed)) == AllResponds(s)
    ensures var s' := s.(commands := s.commands + [cmd]);
            Others(pushed + [cmd]) == AllOthers(s') && multiset(Responds(pushed + [cmd])) == AllResponds(s')
  {
    hide AsCommands, Responds, Others;
    SplitMore(pushed, cmd);
    SplitMore(s.commands, cmd);
    if cmd.Respond? {
      More(Responds(pushed), cmd);
      More(Responds(s.commands), cmd);
      OneMore(multiset(s.sent), multiset(Responds(s.commands)), multiset(AsCommands(PendingAll(s))), cmd);
    }
  }

  lemma CompleteConserves(s: State, io: IoState)
    ensures var s' := s.(io := io); AllOthers(s') == AllOthers(s) && AllResponds(s') == AllResponds(s)
  {
  }

  lemma RunConserves(s: State)
    ensures var s' := RunCommands(s); AllOthers(s') == AllOthers(s) && AllResponds(s') == AllResponds(s)
  {
    hide AllResponds, AllOthers, Drain, RunQueue;
    DrainConserves(s);
    RunQueueConserves(Drain(s));
  }

  /** In particular no respond is sent more often than it was pushed. */
  lemma SentAtMostOnce(io: IoState, es: seq<Event>, r: Command)
    ensures multiset(After(io, es).sent)[r] <= multiset(Responds(Pushed(es)))[r]
  {
    QueueSafety(io, es);
  }

  lemma StepGoes(s: State, e: Event)
    ensures Goes(s, Step(s, e).(io := s.io))
  {
    hide Drain, RunQueue, MayGo, Goes;
    if e.RunAll? {
      RunGoes(s);
      GoesIo(s, RunCommands(s));
    } else {
      NothingGoes(s, Step(s, e).(io := s.io));
    }
  }

  lemma GoesIo(s: State, s': State)
    requires Goes(s, s')
    ensures s'.(io := s.io) == s'
  {
  }

  /** The `k`-th respond was sent by event `i`, and the I/O completed then was what it awaits. */
  ghost predicate SentBy(io: IoState, es: seq<Event>, i: nat, k: nat)
    requires i < |es| && k < |After(io, es).sent|
  {
    var before, after, c := After(io, es[..i]), After(io, es[..i + 1]), After(io, es).sent[k];
    && |before.sent| <= k < |after.sent| && after.sent[k] == c
    && c.Respond? && (c.when.Some? ==> Done(c.when.value, before.io))
  }

  /** No respond is ever sent before the I/O it awaits, whatever completes and in whatever order. */
  lemma {:induction false} SentWhenMet(io: IoState, es: seq<Event>, k: nat)
    requires k < |After(io, es).sent|
    ensures exists i :: 0 <= i < |es| && SentBy(io, es, i, k)
    decreases |es|
  {
    hide Step, Done;
    var n := |es| - 1;
    var init := es[..n];
    var s := After(io, init);
    StepGoes(s, es[n]);
    assert es[..n + 1] == es;
    if k < |s.sent| {
      SentWhenMet(io, init, k);
      var i :| 0 <= i < n && SentBy(io, init, i, k);
      assert init[..i] == es[..i] && init[..i + 1] == es[..i + 1];
      assert SentBy(io, es, i, k);
    } else {
      assert SentBy(io, es, n, k);
    }
  }

  /** The `k`-th other command was executed by event `i`, when nothing held it back. */
  ghost predicate ExecutedBy(io: IoState, es: seq<Event>, i: nat, k: nat)
    requires i < |es| && k < |After(io, es).executed|
  {
    var before, after, c := After(io, es[..i]), After(io, es[..i + 1]), After(io, es).executed[k];
    && |before.executed| <= k < |after.executed| && after.executed[k] == c && !c.Respond?
    && (c.UpdateIOProgress? && c.when.Some? ==> Done(c.when.value, before.io))
    && (c.PurgeLog? ==> OptLe(Some(c.upto), before.io.snapshot))
  }

  /** No progress is updated before the I/O it awaits, and nothing purged before a snapshot has it. */
  lemma {:induction false} ExecutedWhenReady(io: IoState, es: seq<Event>, k: nat)
    requires k < |After(io, es).executed|
    ensures exists i :: 0 <= i < |es| && ExecutedBy(io, es, i, k)
    decreases |es|
  {
    hide Step, Done;
    var n := |es| - 1;
    var init := es[..n];
    var s := After(io, init);
    StepGoes(s, es[n]);
    assert es[..n + 1] == es;
    if k < |s.executed| {
      ExecutedWhenReady(io, init, k);
      var i :| 0 <= i < n && ExecutedBy(io, init, i, k);
      assert init[..i] == es[..i] && init[..i + 1] == es[..i + 1];
      assert ExecutedBy(io, es, i, k);
    } else {
      assert ExecutedBy(io, es, n, k);
    }
  }

  /** In every run: every respond put aside is in the queue of the I/O it awaits; and once commands have been run, the
      first one left, if any, is no respond and is held back. */
  lemma {:induction false} QueuesAreRight(io: IoState, es: seq<Event>)
    ensures Sorts(After(io, es))
    ensures var s := After(io, es + [RunAll]);
            && s.io == After(io, es).io && (s.commands != [] ==> !s.commands[0].Respond? && !MayGo(s.commands[0], s.io))
    decreases |es|
  {
    hide Drain, RunQueue, MayGo, Sorts;
    var more, s := es + [RunAll], After(io, es);
    assert more[..|more| - 1] == es;
    RunGoes(s);
    GoesIo(s, RunCommands(s));
    if |es| == 0 {
      EmptySorts(io);
    } else {
      QueuesAreRight(io, es[..|es| - 1]);
      StepSorts(After(io, es[..|es| - 1]), es[|es| - 1]);
    }
  }

  lemma EmptySorts(io: IoState)
    ensures Sorts(Empty(io))
  {
  }

  lemma StepSorts(s: State, e: Event)
    requires Sorts(s)
    ensures Sorts(Step(s, e))
  {
    hide Drain, RunQueue;
    if e.RunAll? {
      DrainSorts(s);
      RunQueueSorts(Drain(s));
    }
  }

  // ----- Which answers come in order ----------------------------------------------

  /** The two kinds of answers a node puts aside until its own I/O is flushed. */
  datatype Answer = ToAppend | ToVote

  /** An accepted append waits for what is accepted; the answer to a vote request waits for the vote alone. */
  function WaitOf(n: Node, a: Answer): IoId
    requires n.accepted.Some?
  {
    match a
    case ToAppend => n.accepted.value
    case ToVote => NewIo(n.vote)
  }

  /** States of one node, one after the other: what it has accepted is under its vote, and never goes back. */
  ghost predicate InTime(ns: seq<Node>) {
    && (forall i :: 0 <= i < |ns| ==> ns[i].accepted.Some? && IoVote(ns[i].accepted.value) == ns[i].vote)
    && forall i, j :: 0 <= i < j < |ns| ==> !IoLt(ns[j].accepted.value, ns[i].accepted.value)
  }

  /** An answer to a vote request falls behind only answers to appends under the same vote. */
  ghost predicate FallsBehind(a: Node, x: Answer, b: Node, y: Answer) {
    && x.ToAppend? && y.ToVote? && a.vote == b.vote
    && a.accepted.Some? && IoLogId(a.accepted.value).Some?
  }

  lemma PairInOrder(a: Node, x: Answer, b: Node, y: Answer)
    requires a.accepted.Some? && b.accepted.Some?
    requires IoVote(a.accepted.value) == a.vote && IoVote(b.accepted.value) == b.vote
    requires !IoLt(b.accepted.value, a.accepted.value)
    ensures !IoLt(WaitOf(b, y), WaitOf(a, x)) <==> !FallsBehind(a, x, b, y)
  {
  }

  /** The waits of answers never decrease, so that none of them hides a satisfied one, if and only if no answer
      to a vote request follows an answer to an append of entries under the same vote. */
  lemma AnswersInOrder(ns: seq<Node>, kinds: seq<Answer>, ps: seq<Pending>)
    requires InTime(ns) && |kinds| == |ns| == |ps|
    requires forall i :: 0 <= i < |ns| ==> ps[i].when == IOFlushed(WaitOf(ns[i], kinds[i]))
    ensures (forall i, j :: 0 <= i < j < |ps| ==> WaitLe(ps[i].when, ps[j].when))
       <==> (forall i, j :: 0 <= i < j < |ps| ==> !FallsBehind(ns[i], kinds[i], ns[j], kinds[j]))
  {
    forall i, j | 0 <= i < j < |ps|
      ensures WaitLe(ps[i].when, ps[j].when) <==> !FallsBehind(ns[i], kinds[i], ns[j], kinds[j])
    {
      PairInOrder(ns[i], kinds[i], ns[j], kinds[j]);
    }
  }

  /** Such an answer does wait for too much: the vote of leader `u` is flushed, but the refusal of a vote request
      stays put aside behind the answer to an append of entry `x`. */
  lemma RefusalWaitsTooLong(u: LeaderId, x: LogId)
    ensures var append, refusal := Pending(IOFlushed(LogIo(u, Some(x))), 0), Pending(IOFlushed(NewIo(Vote(u, true))), 1);
            var s := Empty(IoState(Some(LogIo(u, None)), None, None)).(onLogIo := [append, refusal]);
            IsMet(refusal.when, s.io) && RunCommands(s) == s
  {
    var append, refusal := Pending(IOFlushed(LogIo(u, Some(x))), 0), Pending(IOFlushed(NewIo(Vote(u, true))), 1);
    var s := Empty(IoState(Some(LogIo(u, None)), None, None)).(onLogIo := [append, refusal]);
    assert Satisfied(s.onLogIo, s.io) == 0;
    assert s.onLogIo[0..] == s.onLogIo;
    assert Drain(s) == s;
  }
}
