/** Sending a snapshot in chunks to a receiver that rebuilds it, over a channel that loses messages. */
module SnapshotTransport {
  import opened Ids

  type Byte = x: nat | x < 256
  type Bytes = seq<Byte>
  type SnapshotId = string

  /** `InstallSnapshotRequest`, without the vote. */
  datatype Request = Request(id: SnapshotId, offset: nat, data: Bytes, done: bool)

  datatype Reply = Accepted | Received(data: Bytes) | Mismatch

  // ----- A buffer with a cursor ---------------------------------------------------

  function Zeros(n: nat): (r: Bytes)
    ensures |r| == n
  {
    seq(n, _ => 0)
  }

  /** Writing at a position: over what is there, and past the end after filling the gap with zeros. */
  function WriteAt(buf: Bytes, at: nat, data: Bytes): Bytes {
    var base := if at > |buf| then buf + Zeros(at - |buf|) else buf;
    base[..at] + data + (if at + |data| < |base| then base[at + |data|..] else [])
  }

  /** Writing the bytes of `whole` from a position inside a prefix of `whole` gives a prefix again. */
  lemma WriteExtends(whole: Bytes, buf: Bytes, at: nat, data: Bytes)
    requires buf <= whole && at <= |buf| && at + |data| <= |whole| && data == whole[at..at + |data|]
    ensures var r := WriteAt(buf, at, data); r <= whole && |buf| <= |r| && at + |data| <= |r|
  {
    var r := WriteAt(buf, at, data);
    assert forall k :: 0 <= k < |r| ==> r[k] == whole[k];
  }

  // ----- The receiver -------------------------------------------------------------

  /** A stream being received: its id, the position of the next byte, and the bytes so far. */
  datatype Stream = Stream(id: SnapshotId, offset: nat, data: Bytes)

  /** `Streaming::receive`: seek when the offset is not where the stream stands, then write. */
  function Take(s: Stream, req: Request): Stream {
    var at := req.offset;
    s.(offset := at + |req.data|, data := WriteAt(s.data, at, req.data))
  }

  /** `receive_snapshot`: a chunk of another snapshot starts a new stream, and only at offset 0. */
  function Receive(stream: Option<Stream>, req: Request): (Option<Stream>, Reply) {
    if (stream.None? || stream.value.id != req.id) && req.offset != 0 then (stream, Mismatch)
    else
      var s := if stream.None? || stream.value.id != req.id then Stream(req.id, 0, []) else stream.value;
      var s' := Take(s, req);
      if req.done then (None, Received(s'.data)) else (Some(s'), Accepted)
  }

  // ----- The sender ---------------------------------------------------------------

  /** A sender goes on until it learns that the last chunk has arrived, or until it is stopped. */
  datatype Phase = Sending | Finished | Stopped

  /** A sender of `data`, with the offset of the next chunk. */
  datatype Sender = Sender(data: Bytes, offset: nat, phase: Phase)

  function Chunk(id: SnapshotId, s: Sender, size: nat): Request
    requires s.offset <= |s.data|
  {
    var end := if s.offset + size <= |s.data| then s.offset + size else |s.data|;
    Request(id, s.offset, s.data[s.offset..end], end == |s.data|)
  }

  /** What a sender does with the reply to a chunk. */
  function OnReply(s: Sender, req: Request, reply: Reply): Sender {
    match reply
    case Mismatch => s.(offset := 0)
    case _ => if req.done then s.(phase := Finished) else s.(offset := s.offset + |req.data|)
  }

  // ----- Transfers over a lossy channel -------------------------------------------

  /** Senders of snapshots with different ids to one receiver, and what the receiver has returned. */
  datatype Transfer = Transfer(
    senders: map<SnapshotId, Sender>,
    stream: Option<Stream>,
    returned: seq<(SnapshotId, Bytes)>)

  datatype Event =
    /** A chunk arrives and its reply gets back, or is lost. */
    | Deliver(id: SnapshotId, replied: bool)
    /** A chunk is lost on the way. */
    | LoseRequest(id: SnapshotId)
    /** The receiver forgets the stream it was receiving. */
    | RestartReceiver
    /** A new sender takes over with the same snapshot. */
    | RestartSender(id: SnapshotId)
    /** A sender gives up. */
    | Stop(id: SnapshotId)

  ghost predicate Enabled(t: Transfer, e: Event) {
    match e
    case Deliver(id, _) => id in t.senders && t.senders[id].phase.Sending? && t.senders[id].offset <= |t.senders[id].data|
    case _ => true
  }

  function Step(t: Transfer, size: nat, e: Event): Transfer
    requires Enabled(t, e)
  {
    match e
    case Deliver(id, replied) =>
      var s := t.senders[id];
      var req := Chunk(id, s, size);
      var (stream, reply) := Receive(t.stream, req);
      Transfer(
        if replied then t.senders[id := OnReply(s, req, reply)] else t.senders,
        stream,
        if reply.Received? then t.returned + [(id, reply.data)] else t.returned)
    case LoseRequest(_) => t
    case RestartReceiver => t.(stream := None)
    case RestartSender(id) =>
      if id in t.senders then t.(senders := t.senders[id := t.senders[id].(offset := 0, phase := Sending)]) else t
    case Stop(id) =>
      if id in t.senders then t.(senders := t.senders[id := t.senders[id].(phase := Stopped)]) else t
  }

  /** The receiver's bytes are a prefix of what the sender sends, and reach its offset. */
  ghost predicate StreamOk(t: Transfer) {
    t.stream.Some? && t.stream.value.id in t.senders ==>
      var s := t.senders[t.stream.value.id];
      t.stream.value.data <= s.data && s.offset <= |t.stream.value.data|
  }

  /** The receiver has returned the snapshot `id`. */
  ghost predicate Returned(t: Transfer, id: SnapshotId)
    requires id in t.senders
  {
    exists k :: 0 <= k < |t.returned| && t.returned[k] == (id, t.senders[id].data)
  }

  ghost predicate Inv(t: Transfer) {
    && StreamOk(t)
    && (forall id :: id in t.senders && t.senders[id].phase.Finished? ==> Returned(t, id))
    && (t.stream.Some? ==> t.stream.value.id in t.senders)
    && (forall id :: id in t.senders ==> t.senders[id].offset <= |t.senders[id].data|)
    && forall k :: 0 <= k < |t.returned| ==>
         t.returned[k].0 in t.senders && t.returned[k].1 == t.senders[t.returned[k].0].data
  }

  /** A chunk at an offset the stream has reached extends it, and completes it when it is the last. */
  lemma TakeExtends(s: Stream, sender: Sender, size: nat)
    requires sender.offset <= |s.data| && s.data <= sender.data
    ensures var req := Chunk(s.id, sender, size); var s' := Take(s, req);
            && s'.data <= sender.data && |s.data| <= |s'.data| && sender.offset + |req.data| <= |s'.data|
            && (req.done ==> s'.data == sender.data)
  {
    var req := Chunk(s.id, sender, size);
    WriteExtends(sender.data, s.data, sender.offset, req.data);
  }

  /** A snapshot that was returned stays returned. */
  lemma ReturnedStays(t: Transfer, t': Transfer, id: SnapshotId)
    requires id in t.senders && id in t'.senders && t'.senders[id].data == t.senders[id].data && t.returned <= t'.returned
    requires Returned(t, id)
    ensures Returned(t', id)
  {
    var k :| 0 <= k < |t.returned| && t.returned[k] == (id, t.senders[id].data);
    assert t'.returned[k] == t.returned[k];
  }

  lemma DeliverKeeps(t: Transfer, size: nat, id: SnapshotId, replied: bool)
    requires Inv(t) && Enabled(t, Deliver(id, replied))
    ensures Inv(Step(t, size, Deliver(id, replied)))
  {
    hide Returned;
    var sender, t' := t.senders[id], Step(t, size, Deliver(id, replied));
    var req := Chunk(id, sender, size);
    if (t.stream.None? || t.stream.value.id != id) && req.offset != 0 {
    } else {
      var s := if t.stream.None? || t.stream.value.id != id then Stream(id, 0, []) else t.stream.value;
      TakeExtends(s, sender, size);
      if req.done {
        LastReturned(t', id);
      }
    }
    forall other | other in t'.senders && t'.senders[other].phase.Finished? ensures Returned(t', other) {
      if t.senders[other].phase.Finished? {
        ReturnedStays(t, t', other);
      }
    }
  }

  lemma LastReturned(t: Transfer, id: SnapshotId)
    requires id in t.senders && |t.returned| > 0 && t.returned[|t.returned| - 1] == (id, t.senders[id].data)
    ensures Returned(t, id)
  {
  }

  lemma StepKeeps(t: Transfer, size: nat, e: Event)
    requires Inv(t) && Enabled(t, e)
    ensures Inv(Step(t, size, e)) && Step(t, size, e).senders.Keys == t.senders.Keys
    ensures forall id :: id in t.senders ==> Step(t, size, e).senders[id].data == t.senders[id].data
  {
    if e.Deliver? {
      DeliverKeeps(t, size, e.id, e.replied);
    } else {
      var t' := Step(t, size, e);
      forall id | id in t'.senders && t'.senders[id].phase.Finished? ensures Returned(t', id) {
        ReturnedStays(t, t', id);
      }
    }
  }

  /** States reachable in `n` events. */
  ghost predicate IsRun(run: seq<Transfer>, size: nat) {
    && |run| > 0
    && run[0].stream == None && run[0].returned == []
    && (forall id :: id in run[0].senders ==> run[0].senders[id].offset == 0 && run[0].senders[id].phase.Sending?)
    && forall i :: 0 <= i < |run| - 1 ==> Next(run[i], run[i + 1], size)
  }

  ghost predicate Next(t: Transfer, t': Transfer, size: nat) {
    exists e :: Enabled(t, e) && t' == Step(t, size, e)
  }

  lemma {:induction false} RunInv(run: seq<Transfer>, size: nat, i: nat)
    requires IsRun(run, size) && i < |run|
    ensures Inv(run[i]) && run[i].senders.Keys == run[0].senders.Keys
    ensures forall id :: id in run[0].senders ==> run[i].senders[id].data == run[0].senders[id].data
    decreases i
  {
    if i > 0 {
      RunInv(run, size, i - 1);
      assert Next(run[i - 1], run[i - 1 + 1], size);
      var e :| Enabled(run[i - 1], e) && run[i] == Step(run[i - 1], size, e);
      StepKeeps(run[i - 1], size, e);
    }
  }

  /** Whatever the channel loses, and however streams interleave and either side restarts, every
      snapshot the receiver returns is the sender's, byte for byte. */
  lemma ReturnedIsSent(run: seq<Transfer>, size: nat, i: nat, k: nat)
    requires IsRun(run, size) && i < |run| && k < |run[i].returned|
    ensures var (id, data) := run[i].returned[k];
            id in run[0].senders && data == run[0].senders[id].data
  {
    RunInv(run, size, i);
  }

  /** Whenever a sender has learned that it finished, the receiver has returned its snapshot. */
  lemma FinishedIsReturned(run: seq<Transfer>, size: nat, i: nat, id: SnapshotId)
    requires IsRun(run, size) && i < |run| && id in run[i].senders && run[i].senders[id].phase.Finished?
    ensures id in run[0].senders && (id, run[0].senders[id].data) in run[i].returned
  {
    RunInv(run, size, i);
    ReturnedIn(run[i], id);
  }

  // ----- What gets through in the end ---------------------------------------------

  /** `n` chunks of one sender arrive, one after the other, and so do the replies. */
  function Deliveries(t: Transfer, size: nat, id: SnapshotId, n: nat): Transfer
    decreases n
  {
    if n == 0 || id !in t.senders || !t.senders[id].phase.Sending? || t.senders[id].offset > |t.senders[id].data| then t
    else Deliveries(Step(t, size, Deliver(id, true)), size, id, n - 1)
  }

  /** The receiver has the stream of this sender, or would start it. */
  predicate InStep(t: Transfer, id: SnapshotId)
    requires id in t.senders
  {
    t.senders[id].offset == 0 || (t.stream.Some? && t.stream.value.id == id)
  }

  /** From any state, whatever was lost or restarted before it: once chunks and replies get through, a sender
      finishes, and the receiver has returned its snapshot. */
  lemma {:induction false} Finishes(t: Transfer, size: nat, id: SnapshotId) returns (n: nat)
    requires Inv(t) && size > 0 && id in t.senders && t.senders[id].phase.Sending?
    ensures var t' := Deliveries(t, size, id, n);
            && id in t'.senders && t'.senders[id].phase.Finished? && t'.senders[id].data == t.senders[id].data
            && (id, t.senders[id].data) in t'.returned
    decreases if InStep(t, id) then 0 else 1, |t.senders[id].data| - t.senders[id].offset
  {
    hide Returned;
    var t1 := Step(t, size, Deliver(id, true));
    StepKeeps(t, size, Deliver(id, true));
    if t1.senders[id].phase.Finished? {
      n := 1;
      ReturnedIn(t1, id);
      assert Deliveries(t1, size, id, 0) == t1;
    } else {
      n := Finishes(t1, size, id);
      n := n + 1;
    }
  }

  lemma ReturnedIn(t: Transfer, id: SnapshotId)
    requires Inv(t) && id in t.senders && t.senders[id].phase.Finished?
    ensures (id, t.senders[id].data) in t.returned
  {
    var k :| 0 <= k < |t.returned| && t.returned[k] == (id, t.senders[id].data);
  }

  // ----- The same, updated in place -----------------------------------------------

  /** A stream whose data is written through a cursor. */
  class Streaming {
    const id: SnapshotId
    var offset: nat
    var buf: Bytes
    var cursor: nat

    ghost predicate Valid()
      reads this
    {
      cursor == offset
    }

    ghost function View(): Stream
      reads this
    {
      Stream(id, offset, buf)
    }

    constructor (id: SnapshotId)
      ensures Valid() && View() == Stream(id, 0, [])
    {
      this.id := id;
      offset := 0;
      buf := [];
      cursor := 0;
    }

    method Receive(req: Request) returns (done: bool)
      requires Valid()
      modifies this
      ensures Valid() && View() == Take(old(View()), req) && done == req.done
    {
      if req.offset != offset {
        cursor := req.offset;
        offset := req.offset;
      }
      buf := WriteAt(buf, cursor, req.data);
      cursor := cursor + |req.data|;
      offset := offset + |req.data|;
      return req.done;
    }
  }

  class Receiver {
    var streaming: Streaming?

    ghost predicate Valid()
      reads this, streaming
    {
      streaming != null ==> streaming.Valid()
    }

    ghost function View(): Option<Stream>
      reads this, streaming
    {
      if streaming == null then None else Some(streaming.View())
    }

    constructor ()
      ensures Valid() && View() == None
    {
      streaming := null;
    }

    method ReceiveSnapshot(req: Request) returns (reply: Reply)
      requires Valid()
      modifies this, streaming
      ensures Valid() && (streaming != null ==> fresh(streaming) || streaming == old(streaming))
      ensures (View(), reply) == Receive(old(View()), req)
    {
      if streaming == null || streaming.id != req.id {
        if req.offset != 0 {
          return Mismatch;
        }
        streaming := new Streaming(req.id);
      }
      var done := streaming.Receive(req);
      if done {
        var data := streaming.buf;
        streaming := null;
        return Received(data);
      }
      return Accepted;
    }
  }

  /** With reliable delivery the sending loop ends, and the receiver returns exactly the snapshot. */
  method SendSnapshot(receiver: Receiver, id: SnapshotId, data: Bytes, size: nat) returns (got: Bytes)
    requires receiver.Valid() && size > 0
    requires receiver.View().Some? && receiver.View().value.id == id ==> receiver.View().value.data <= data
    modifies receiver, receiver.streaming
    ensures receiver.Valid() && receiver.View() == None
    ensures got == data
  {
    var s := Sender(data, 0, Sending);
    got := [];
    while s.phase.Sending?
      invariant receiver.Valid()
      invariant receiver.streaming != null ==> fresh(receiver.streaming) || receiver.streaming == old(receiver.streaming)
      invariant s.data == data && s.offset <= |data|
      invariant s.phase.Sending? ==> Ready(receiver.View(), id, s)
      invariant !s.phase.Sending? ==> got == data && receiver.View() == None
      decreases s.phase.Sending?, |data| - s.offset
    {
      var req := Chunk(id, s, size);
      ReadyTakes(receiver.View(), id, s, size);
      var reply := receiver.ReceiveSnapshot(req);
      if reply.Received? {
        got := reply.data;
      }
      s := OnReply(s, req, reply);
    }
  }

  /** The receiver can go on from the sender's offset. */
  ghost predicate Ready(stream: Option<Stream>, id: SnapshotId, s: Sender) {
    if stream.Some? && stream.value.id == id then
      stream.value.data <= s.data && s.offset <= |stream.value.data|
    else s.offset == 0
  }

  lemma ReadyTakes(stream: Option<Stream>, id: SnapshotId, s: Sender, size: nat)
    requires Ready(stream, id, s) && s.phase.Sending? && s.offset <= |s.data| && size > 0
    ensures var req := Chunk(id, s, size);
            var (stream', reply) := Receive(stream, req);
            var s' := OnReply(s, req, reply);
            && s'.data == s.data && s'.offset <= |s.data|
            && (!s'.phase.Sending? ==> reply == Received(s.data) && stream' == None)
            && (s'.phase.Sending? ==> Ready(stream', id, s') && s.offset < s'.offset && !reply.Received?)
  {
    var from := if stream.Some? && stream.value.id == id then stream.value else Stream(id, 0, []);
    TakeExtends(from, s, size);
  }
}
