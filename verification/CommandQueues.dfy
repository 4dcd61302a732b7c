/** The queues and the command loop as objects updated in place. */
module CommandQueues {
  import opened Ids
  import opened EngineSpec
  import opened Commands

  datatype Phase = LogIO | LogFlush | Apply | BuildSnapshot | Done

  /** The output of the engine: the command queue and the responds put aside. */
  class EngineOutput {
    var commands: seq<Command>
    var onLogIo: seq<Pending>
    var onLogFlush: seq<Pending>
    var onApply: seq<Pending>
    var onSnapshot: seq<Pending>

    constructor ()
      ensures commands == [] && onLogIo == [] && onLogFlush == [] && onApply == [] && onSnapshot == []
    {
      commands := [];
      onLogIo := [];
      onLogFlush := [];
      onApply := [];
      onSnapshot := [];
    }

    method PushCommand(cmd: Command)
      modifies this`commands
      ensures commands == old(commands) + [cmd]
    {
      commands := commands + [cmd];
    }

    method PopCommand() returns (r: Option<Command>)
      modifies this`commands
      ensures r == if old(commands) == [] then None else Some(old(commands)[0])
      ensures commands == if old(commands) == [] then [] else old(commands)[1..]
    {
      if commands == [] {
        return None;
      }
      r := Some(commands[0]);
      commands := commands[1..];
    }

    /** Puts a respond aside, or any other command back to the front; the answer is whether the other
        commands may go on. */
    method PostponeCommand(cmd: Command) returns (ok: bool)
      requires cmd.Respond? ==> cmd.when.Some?
      modifies this
      ensures ok == cmd.Respond?
      ensures commands == if ok then old(commands) else [cmd] + old(commands)
      ensures onLogIo == old(onLogIo) + Put(cmd, (c: Condition) => c.IOFlushed?)
      ensures onLogFlush == old(onLogFlush) + Put(cmd, (c: Condition) => c.LogFlushed?)
      ensures onApply == old(onApply) + Put(cmd, (c: Condition) => c.Applied?)
      ensures onSnapshot == old(onSnapshot) + Put(cmd, (c: Condition) => c.Snapshot?)
    {
      match cmd {
        case Respond(when, resp) =>
          var p := Pending(when.value, resp);
          match when.value {
            case IOFlushed(_) => onLogIo := onLogIo + [p];
            case LogFlushed(_) => onLogFlush := onLogFlush + [p];
            case Applied(_) => onApply := onApply + [p];
            case Snapshot(_) => onSnapshot := onSnapshot + [p];
          }
          return true;
        case _ =>
          commands := [cmd] + commands;
          return false;
      }
    }

    /** What a postponed command adds to the queue of one kind of condition. */
    static function Put(cmd: Command, kind: Condition -> bool): seq<Pending> {
      if cmd.Respond? && cmd.when.Some? && kind(cmd.when.value) then [Pending(cmd.when.value, cmd.resp)] else []
    }

    ghost function View(io: IoState, executed: seq<Command>, sent: seq<Command>): State
      reads this
    {
      State(commands, onLogIo, onLogFlush, onApply, onSnapshot, io, executed, sent)
    }

    /** `pop_if_satisfied` on the queue of a phase. */
    method PopIfSatisfied(phase: Phase, io: IoState) returns (r: Option<Pending>)
      requires phase != Done
      modifies this
      ensures commands == old(commands)
      ensures r == if old(Queue(phase)) != [] && IsMet(old(Queue(phase))[0].when, io) then Some(old(Queue(phase))[0]) else None
      ensures Queue(phase) == if r.Some? then old(Queue(phase))[1..] else old(Queue(phase))
      ensures phase != LogIO ==> onLogIo == old(onLogIo)
      ensures phase != LogFlush ==> onLogFlush == old(onLogFlush)
      ensures phase != Apply ==> onApply == old(onApply)
      ensures phase != BuildSnapshot ==> onSnapshot == old(onSnapshot)
    {
      var q := Queue(phase);
      if q == [] || !IsMet(q[0].when, io) {
        return None;
      }
      r := Some(q[0]);
      match phase {
        case LogIO => onLogIo := q[1..];
        case LogFlush => onLogFlush := q[1..];
        case Apply => onApply := q[1..];
        case BuildSnapshot => onSnapshot := q[1..];
      }
    }

    function Queue(phase: Phase): seq<Pending>
      requires phase != Done
      reads this
    {
      match phase
      case LogIO => onLogIo
      case LogFlush => onLogFlush
      case Apply => onApply
      case BuildSnapshot => onSnapshot
    }
  }

  /** The part of the runtime that runs commands. */
  class Runtime {
    const output: EngineOutput
    var io: IoState
    var executed: seq<Command>
    var sent: seq<Command>

    constructor (io: IoState)
      ensures fresh(output) && View() == Empty(io)
    {
      output := new EngineOutput();
      this.io := io;
      executed := [];
      sent := [];
    }

    ghost function View(): State
      reads this, output
    {
      output.View(io, executed, sent)
    }

    /** Drains one queue from the front. */
    method DrainPhase(phase: Phase)
      requires phase != Done
      modifies this`sent, output
      ensures output.commands == old(output.commands)
      ensures var q := old(output.Queue(phase)); var n := Satisfied(q, io);
              output.Queue(phase) == q[n..] && sent == old(sent) + AsCommands(q[..n])
      ensures phase != LogIO ==> output.onLogIo == old(output.onLogIo)
      ensures phase != LogFlush ==> output.onLogFlush == old(output.onLogFlush)
      ensures phase != Apply ==> output.onApply == old(output.onApply)
      ensures phase != BuildSnapshot ==> output.onSnapshot == old(output.onSnapshot)
    {
      ghost var q := output.Queue(phase);
      ghost var n := Satisfied(q, io);
      ghost var i := 0;
      while true
        invariant i <= n && output.Queue(phase) == q[i..]
        invariant sent == old(sent) + AsCommands(q[..i])
        invariant output.commands == old(output.commands)
        invariant phase != LogIO ==> output.onLogIo == old(output.onLogIo)
        invariant phase != LogFlush ==> output.onLogFlush == old(output.onLogFlush)
        invariant phase != Apply ==> output.onApply == old(output.onApply)
        invariant phase != BuildSnapshot ==> output.onSnapshot == old(output.onSnapshot)
        decreases |output.Queue(phase)|
      {
        var p := output.PopIfSatisfied(phase, io);
        if p.None? {
          break;
        }
        sent := sent + [AsCommand(p.value)];
        assert q[..i + 1] == q[..i] + [q[i]];
        i := i + 1;
      }
    }

    /** `send_satisfied_responds`: every queue in turn. */
    method SendSatisfiedResponds()
      modifies this`sent, output
      ensures View() == Drain(old(View()))
    {
      hide AsCommands, Satisfied, Drain;
      ghost var s := View();
      DrainPhase(LogIO);
      DrainPhase(LogFlush);
      DrainPhase(Apply);
      DrainPhase(BuildSnapshot);
      DrainedInTurn(s, View());
    }

    /** `run_engine_commands`, up to the progress-driven commands. */
    method RunEngineCommands()
      modifies this`sent, this`executed, output
      ensures View() == RunCommands(old(View()))
      ensures Goes(old(View()), View())
      ensures output.commands != [] ==> !output.commands[0].Respond? && !MayGo(output.commands[0], io)
    {
      hide IsMet, Drain, Goes, MayGo;
      RunGoes(View());
      SendSatisfiedResponds();
      ghost var s := View();
      while true
        invariant io == s.io && RunQueue(View()) == RunQueue(s)
        decreases |output.commands|
      {
        ghost var v := View();
        var cmd := output.PopCommand();
        if cmd.None? {
          assert View() == v == RunQueue(v);
          break;
        }
        if Ready(cmd.value, io) {
          if cmd.value.Respond? {
            sent := sent + [cmd.value];
          } else {
            executed := executed + [cmd.value];
          }
          assert View() == Taken(v);
          continue;
        }
        var ok := output.PostponeCommand(cmd.value);
        if ok {
          assert View() == Postpone(v.(commands := v.commands[1..]), Pending(cmd.value.when.value, cmd.value.resp));
          continue;
        }
        assert [cmd.value] + v.commands[1..] == v.commands;
        assert View() == v == RunQueue(v);
        break;
      }
    }
  }

  lemma DrainedInTurn(s: State, s': State)
    requires var a, b := Satisfied(s.onLogIo, s.io), Satisfied(s.onLogFlush, s.io);
             var c, d := Satisfied(s.onApply, s.io), Satisfied(s.onSnapshot, s.io);
             && s' == s.(onLogIo := s.onLogIo[a..], onLogFlush := s.onLogFlush[b..], onApply := s.onApply[c..],
                         onSnapshot := s.onSnapshot[d..], sent := s'.sent)
             && s'.sent == s.sent + AsCommands(s.onLogIo[..a]) + AsCommands(s.onLogFlush[..b])
                           + AsCommands(s.onApply[..c]) + AsCommands(s.onSnapshot[..d])
    ensures s' == Drain(s)
  {
    hide AsCommands, Satisfied;
    var a, b := Satisfied(s.onLogIo, s.io), Satisfied(s.onLogFlush, s.io);
    var c, d := Satisfied(s.onApply, s.io), Satisfied(s.onSnapshot, s.io);
    AllJoined(s.sent, s.onLogIo[..a], s.onLogFlush[..b], s.onApply[..c], s.onSnapshot[..d]);
  }

  lemma AllJoined(sent: seq<Command>, a: seq<Pending>, b: seq<Pending>, c: seq<Pending>, d: seq<Pending>)
    ensures sent + AsCommands(a) + AsCommands(b) + AsCommands(c) + AsCommands(d) == sent + AsCommands(a + b + c + d)
  {
    hide AsCommands;
    AsCommandsJoin(a, b);
    AsCommandsJoin(a + b, c);
    AsCommandsJoin(a + b + c, d);
    var w, x, y, z := AsCommands(a), AsCommands(b), AsCommands(c), AsCommands(d);
    assert sent + w + x == sent + (w + x);
    assert sent + (w + x) + y == sent + (w + x + y);
    assert sent + (w + x + y) + z == sent + (w + x + y + z);
  }
}
