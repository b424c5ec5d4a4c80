/** Copying a remote attempt's log from the worker's spool to the hub's file
    (internal/workerhub/hub.go, internal/worker/worker.go).

    Chunks carry offsets; the hub appends what lies at its high-water mark, drops what it already has
    and answers a gap with a rewind. Messages may be lost, repeated and reordered, sessions replaced,
    and worker and hub restarted; sends that the source makes on a full queue are lost messages here.
    The file belongs to the task, so late chunks of another attempt of it may be appended too. The spool is
    deleted only once the hub holds all of it, provided that whenever a restarted hub adopts the attempt the
    file holds nothing but what the hub has received of it; and exactly then. */
module LogReplication {
  import opened Options
  import opened Redaction

  datatype Chunk = Chunk(offset: nat, data: Bytes, eof: bool)

  datatype Ack = Ack(offset: nat, rewind: bool)

  // ---- the hub ----

  /** The hub's record of an attempt; without a path it has nowhere to write. */
  datatype HubRef = HubRef(hasPath: bool, hw: nat)

  datatype Received = Received(file: Bytes, hub: HubRef, ack: Ack)

  /** The bytes of the chunk that the hub appends. */
  function Taken(hub: HubRef, c: Chunk): Bytes {
    if !hub.hasPath || c.offset > hub.hw || |c.data| <= hub.hw - c.offset then []
    else c.data[hub.hw - c.offset..]
  }

  function Receive(file: Bytes, hub: HubRef, c: Chunk): Received {
    var data := Taken(hub, c);
    Received(file + data, hub.(hw := hub.hw + |data|), Ack(hub.hw + |data|, c.offset > hub.hw))
  }

  /** refState, with the contents of the file at its log path. */
  class RefState {
    const hasPath: bool
    var logHW: nat
    var file: Bytes

    constructor (hasPath: bool, logHW: nat, file: Bytes)
      ensures this.hasPath == hasPath && this.logHW == logHW && this.file == file
    {
      this.hasPath := hasPath;
      this.logHW := logHW;
      this.file := file;
    }

    method HandleLogChunk(chunk: Chunk) returns (ack: Ack)
      modifies this
      ensures Received(file, HubRef(hasPath, logHW), ack) == Receive(old(file), HubRef(hasPath, old(logHW)), chunk)
      ensures ack.offset == logHW && (ack.rewind <==> chunk.offset > old(logHW))
      ensures hasPath && chunk.offset <= old(logHW) <= chunk.offset + |chunk.data| ==>
                logHW == chunk.offset + |chunk.data| && file == old(file) + chunk.data[old(logHW) - chunk.offset..]
      ensures !hasPath || chunk.offset > old(logHW) || chunk.offset + |chunk.data| <= old(logHW) ==>
                logHW == old(logHW) && file == old(file)
    {
      var c := chunk;
      if c.offset < logHW {
        if |c.data| <= logHW - c.offset {
          return Ack(logHW, false);
        }
        c := c.(data := c.data[logHW - c.offset..], offset := logHW);
      }
      if c.offset > logHW {
        return Ack(logHW, true);
      }
      if hasPath && |c.data| > 0 {
        file := file + c.data;
        logHW := logHW + |c.data|;
      }
      ack := Ack(logHW, false);
    }
  }

  ghost predicate SliceOf(written: Bytes, c: Chunk) {
    c.offset + |c.data| <= |written| && c.data == written[c.offset..c.offset + |c.data|]
  }

  /** A chunk of the spool extends what the hub has of the attempt to a longer beginning of the spool, and is
      acknowledged no further than that. */
  lemma ReceiveExtends(written: Bytes, received: Bytes, hub: HubRef, c: Chunk)
    requires SliceOf(written, c) && received <= written
    requires hub.hw == if hub.hasPath then |received| else 0
    ensures var r := Receive(received, hub, c);
            && received <= r.file <= written
            && r.hub.hasPath == hub.hasPath && r.hub.hw == (if hub.hasPath then |r.file| else 0)
            && r.ack.offset == r.hub.hw <= |r.file|
            && (hub.hasPath && c.offset <= |received| ==> |r.file| >= c.offset + |c.data|)
  {
    var r := Receive(received, hub, c);
    if Taken(hub, c) != [] {
      assert r.file == written[..c.offset + |c.data|];
    }
  }

  // ---- the worker ----

  datatype Track = Track(ackOff: nat, rewind: bool, exited: bool)

  function Acked(tr: Track, ack: Ack): Track {
    if ack.rewind then tr.(ackOff := ack.offset, rewind := true)
    else if ack.offset > tr.ackOff then tr.(ackOff := ack.offset)
    else tr
  }

  /** An exited attempt whose spool, of this size, is acknowledged to the end. */
  predicate Collectable(tr: Track, size: nat) {
    tr.exited && tr.ackOff >= size
  }

  /** What the pump may put on the wire for a spool. */
  predicate Sendable(spool: Bytes, exited: bool, c: Chunk) {
    && c.offset + |c.data| <= |spool| && c.data == spool[c.offset..c.offset + |c.data|]
    && (c.eof ==> exited)
  }

  const CHUNK := 32768

  /** refTrack */
  class RefTrack {
    var ackOff: nat
    var rewind: bool
    var exited: bool

    constructor ()
      ensures ackOff == 0 && !rewind && !exited
    {
      ackOff, rewind, exited := 0, false, false;
    }

    function Value(): Track
      reads this
    {
      Track(ackOff, rewind, exited)
    }

    /** handleAck; `collected` says that the spool, if it exists, is deleted. */
    method HandleAck(ack: Ack, spool: Option<Bytes>) returns (collected: bool)
      modifies this
      ensures Value() == Acked(old(Value()), ack)
      ensures ack.rewind ==> ackOff == ack.offset && rewind
      ensures !ack.rewind ==>
                rewind == old(rewind) && ackOff == if ack.offset > old(ackOff) then ack.offset else old(ackOff)
      ensures exited == old(exited)
      ensures collected <==> spool.Some? && Collectable(Value(), |spool.value|)
    {
      if ack.rewind {
        ackOff := ack.offset;
        rewind := true;
      } else if ack.offset > ackOff {
        ackOff := ack.offset;
      }
      collected := exited && spool.Some? && ackOff >= |spool.value|;
    }
  }

  /** One pumpLogs goroutine. */
  class Pump {
    var sendOff: nat
    var eofSent: bool

    constructor (tr: RefTrack)
      ensures sendOff == tr.ackOff && !eofSent
    {
      sendOff, eofSent := tr.ackOff, false;
    }

    /** One turn of the loop. What it sends is the piece of the spool at the send offset, and it ends
        only when the attempt has exited and everything up to the spool's end has been sent. */
    method Turn(tr: RefTrack, spool: Bytes) returns (msg: Option<Chunk>, done: bool)
      modifies this, tr`rewind
      ensures !tr.rewind
      ensures var start := if old(tr.rewind) then tr.ackOff else old(sendOff);
              && (msg.Some? ==> msg.value.offset == start && sendOff == start + |msg.value.data|)
              && (msg.None? ==> sendOff == start)
              && (start <= |spool| && msg.Some? ==> Sendable(spool, tr.exited, msg.value))
              && (start < |spool| ==> msg.Some? && msg.value.data != [])
      ensures done ==> tr.exited && sendOff >= |spool| && eofSent
    {
      if tr.rewind {
        sendOff := tr.ackOff;
        tr.rewind := false;
        eofSent := false;
      }
      var rest := if sendOff < |spool| then |spool| - sendOff else 0;
      var n := if rest < CHUNK then rest else CHUNK;
      if n > 0 {
        var last := tr.exited && n < CHUNK;
        msg := Some(Chunk(sendOff, spool[sendOff..sendOff + n], last));
        sendOff := sendOff + n;
        eofSent := last;
        return msg, false;
      }
      if tr.exited {
        msg := if eofSent then None else Some(Chunk(sendOff, [], true));
        eofSent := true;
        return msg, true;
      }
      msg, done := None, false;
    }
  }

  // ---- the protocol ----

  /** `written` is what the attempt has output so far, `received` what the hub has appended of it; `spooled`
      says whether the spool still exists, and `hello` that a worker's hello which lists the attempt is
      under way. A message once sent may arrive at any later time, any number of times, or never. */
  datatype State = State(
    written: Bytes, finished: bool, spooled: bool, track: Option<Track>, hello: bool,
    file: Bytes, received: Bytes, hub: Option<HubRef>, chunks: set<Chunk>, acks: set<Ack>)

  datatype Step =
    | Output(data: Bytes)
    | Finish
    | NoticeExit
    | Send(c: Chunk)
    | Deliver(c: Chunk)
    | TakeAck(a: Ack)
    | WorkerRestarts
    | Hello
    | HubForgets
    | Adopt(hasPath: bool)
    | Foreign(data: Bytes)

  ghost predicate Init(prior: Bytes, s: State) {
    && s.written == [] && !s.finished && s.spooled && s.track == Some(Track(0, false, false)) && !s.hello
    && s.file == prior && s.received == [] && s.hub.Some? && s.hub.value.hw == 0
    && s.chunks == {} && s.acks == {}
  }

  /** A hello lists the attempts whose process still runs; a worker that restarts keeps track of those only. */
  ghost predicate Enabled(s: State, step: Step) {
    match step
    case Output(_) => !s.finished
    case Finish => !s.finished
    case NoticeExit => s.finished && s.track.Some?
    case Send(c) => s.spooled && s.track.Some? && Sendable(s.written, s.track.value.exited, c)
    case Deliver(c) => c in s.chunks && s.hub.Some?
    case TakeAck(a) => a in s.acks && s.track.Some?
    case WorkerRestarts => true
    case Hello => !s.finished
    case HubForgets => true
    case Adopt(_) => s.hello && s.hub.None?
    case Foreign(_) => true
  }

  /** The hub restarts, or drops the record of a finished attempt, in HubForgets; a worker's hello then
      has the attempt adopted, with the file's size for the high-water mark. Foreign is a chunk of another
      attempt of the task that the hub appends. */
  ghost function Do(s: State, step: Step): State
    requires Enabled(s, step)
  {
    match step
    case Output(data) => s.(written := s.written + data)
    case Finish => s.(finished := true)
    case NoticeExit => s.(track := Some(s.track.value.(exited := true)))
    case Send(c) => s.(chunks := s.chunks + {c})
    case Deliver(c) =>
      var r := Receive(s.file, s.hub.value, c);
      s.(file := r.file, received := s.received + Taken(s.hub.value, c), hub := Some(r.hub), acks := s.acks + {r.ack})
    case TakeAck(a) =>
      var tr := Acked(s.track.value, a);
      if s.spooled && Collectable(tr, |s.written|) then s.(track := None, spooled := false)
      else s.(track := Some(tr))
    case WorkerRestarts => s.(track := if s.finished then None else Some(Track(0, false, false)))
    case Hello => s.(hello := true)
    case HubForgets => s.(hub := None)
    case Adopt(hasPath) => s.(hello := false, hub := Some(HubRef(hasPath, if hasPath then |s.file| else 0)))
    case Foreign(data) => s.(file := s.file + data)
  }

  ghost predicate Path(start: State, trace: seq<State>, steps: seq<Step>) {
    && |trace| == |steps| + 1 && trace[0] == start
    && forall i :: 0 <= i < |steps| ==> Enabled(trace[i], steps[i]) && trace[i + 1] == Do(trace[i], steps[i])
  }

  ghost predicate Execution(prior: Bytes, trace: seq<State>, steps: seq<Step>) {
    |trace| > 0 && Init(prior, trace[0]) && Path(trace[0], trace, steps)
  }

  // ---- safety, while adoptions find only the attempt's own bytes ----

  /** The adoption takes the file's size for a high-water mark, and it is one. */
  predicate AdoptsOwn(s: State, step: Step) {
    step.Adopt? && step.hasPath ==> |s.file| == |s.received|
  }

  ghost predicate AllAdoptOwn(trace: seq<State>, steps: seq<Step>) {
    forall i :: 0 <= i < |steps| && i < |trace| ==> AdoptsOwn(trace[i], steps[i])
  }

  /** Nothing the attempt wrote is lost: once the spool is gone the hub has received all of it. */
  predicate NothingLost(s: State) {
    !s.spooled ==> s.received == s.written
  }

  ghost predicate Inv(s: State) {
    && s.received <= s.written && |s.received| <= |s.file|
    && (s.hub.Some? ==> s.hub.value.hw == if s.hub.value.hasPath then |s.received| else 0)
    && (forall c :: c in s.chunks ==> SliceOf(s.written, c))
    && (forall a :: a in s.acks ==> a.offset <= |s.received|)
    && (s.track.Some? ==> s.track.value.ackOff <= |s.received| && (s.track.value.exited ==> s.finished))
    && (s.track.None? ==> s.finished)
    && (!s.spooled ==> s.finished && s.received == s.written)
  }

  lemma SliceStays(written: Bytes, more: Bytes, c: Chunk)
    requires SliceOf(written, c)
    ensures SliceOf(written + more, c)
  {
    assert (written + more)[c.offset..c.offset + |c.data|] == written[c.offset..c.offset + |c.data|];
  }

  lemma InvStep(s: State, step: Step)
    requires Inv(s) && Enabled(s, step) && AdoptsOwn(s, step)
    ensures Inv(Do(s, step)) && s.received <= Do(s, step).received && s.file <= Do(s, step).file
  {
    var s' := Do(s, step);
    match step
    case Output(data) =>
      forall c | c in s'.chunks ensures SliceOf(s'.written, c) { SliceStays(s.written, data, c); }
    case Deliver(c) =>
      ReceiveExtends(s.written, s.received, s.hub.value, c);
    case _ =>
  }

  lemma {:induction false} InvAlong(start: State, trace: seq<State>, steps: seq<Step>, i: nat)
    requires Inv(start) && Path(start, trace, steps) && AllAdoptOwn(trace, steps) && i < |trace|
    ensures Inv(trace[i])
    decreases i
  {
    if i > 0 {
      InvAlong(start, trace, steps, i - 1);
      assert AdoptsOwn(trace[i - 1], steps[i - 1]);
      InvStep(trace[i - 1], steps[i - 1]);
    }
  }

  /** What the hub has of the attempt is always the beginning of what it wrote, as long as the high-water mark
      says; no acknowledgement has run ahead of it, and the spool is not deleted before all of it is there. */
  lemma ReceivedIsPrefix(prior: Bytes, trace: seq<State>, steps: seq<Step>, i: nat)
    requires Execution(prior, trace, steps) && AllAdoptOwn(trace, steps) && i < |trace|
    ensures trace[i].received <= trace[i].written && NothingLost(trace[i])
    ensures trace[i].hub.Some? && trace[i].hub.value.hasPath ==> trace[i].hub.value.hw == |trace[i].received|
    ensures trace[i].track.Some? ==> trace[i].track.value.ackOff <= |trace[i].received|
  {
    InvAlong(trace[0], trace, steps, i);
  }

  /** No chunk of another attempt arrives while this one's record lives. */
  ghost predicate Alone(steps: seq<Step>) {
    forall i :: 0 <= i < |steps| ==> !steps[i].Foreign?
  }

  lemma {:induction false} FileOfOne(prior: Bytes, trace: seq<State>, steps: seq<Step>, i: nat)
    requires Execution(prior, trace, steps) && Alone(steps) && i < |trace|
    ensures trace[i].file == prior + trace[i].received
    decreases i
  {
    if i > 0 {
      FileOfOne(prior, trace, steps, i - 1);
      if steps[i - 1].Deliver? {
        Associates(prior, trace[i - 1].received, Taken(trace[i - 1].hub.value, steps[i - 1].c));
      }
    }
  }

  lemma EmptyAndAloneAdoptOwn(trace: seq<State>, steps: seq<Step>)
    requires Execution([], trace, steps) && Alone(steps)
    ensures AllAdoptOwn(trace, steps)
  {
    forall i | 0 <= i < |steps| && i < |trace| ensures AdoptsOwn(trace[i], steps[i]) {
      FileOfOne([], trace, steps, i);
    }
  }

  /** A file that starts empty and that no other attempt writes is always the beginning of what the attempt
      wrote. */
  lemma FileIsPrefix(trace: seq<State>, steps: seq<Step>, i: nat)
    requires Execution([], trace, steps) && Alone(steps) && i < |trace|
    ensures trace[i].file <= trace[i].written && trace[i].file == trace[i].received
    ensures trace[i].hub.Some? && trace[i].hub.value.hasPath ==> trace[i].hub.value.hw == |trace[i].file|
    ensures trace[i].track.Some? ==> trace[i].track.value.ackOff <= |trace[i].file|
  {
    EmptyAndAloneAdoptOwn(trace, steps);
    ReceivedIsPrefix([], trace, steps, i);
    FileOfOne([], trace, steps, i);
    assert [] + trace[i].received == trace[i].received;
  }

  /** What the hub once holds it keeps. */
  lemma {:induction false} FileOnlyGrows(prior: Bytes, trace: seq<State>, steps: seq<Step>, i: nat, j: nat)
    requires Execution(prior, trace, steps) && i <= j < |trace|
    ensures trace[i].file <= trace[j].file && trace[i].received <= trace[j].received
    decreases j - i
  {
    if i < j {
      FileOnlyGrows(prior, trace, steps, i + 1, j);
    }
  }

  // ---- gaps are repaired, and the spool gets through ----

  /** A chunk past the hub's mark is answered with a rewind to the mark; once the worker has taken the answer it
      sends on from there, and whatever it sends next the hub receives. */
  lemma GapIsRepaired(s: State, c: Chunk, m: Chunk)
    requires Inv(s) && s.spooled && s.track.Some? && s.hub.Some? && s.hub.value.hasPath
    requires c in s.chunks && c.offset > |s.received|
    ensures Enabled(s, Deliver(c))
    ensures var gap := Do(s, Deliver(c));
            gap == s.(acks := s.acks + {Ack(|s.received|, true)}) && Enabled(gap, TakeAck(Ack(|s.received|, true)))
    ensures var told := Do(Do(s, Deliver(c)), TakeAck(Ack(|s.received|, true)));
            && told.spooled && told.track == Some(Track(|s.received|, true, s.track.value.exited))
            && |s.received| < |s.written|
            && (m.offset == |s.received| && m.data != [] && Sendable(s.written, s.track.value.exited, m) ==>
                Enabled(told, Send(m)) && Enabled(Do(told, Send(m)), Deliver(m)) &&
                Do(Do(told, Send(m)), Deliver(m)).received == s.received + m.data)
  {
    assert SliceOf(s.written, c);
    var gap := Do(s, Deliver(c));
    assert Taken(s.hub.value, c) == [] && gap.file == s.file && gap.received == s.received;
    if m.offset == |s.received| {
      assert Taken(s.hub.value, m) == m.data;
    }
  }

  /** The same with anything in between: a chunk that starts no later than the hub's mark, as every chunk does
      that is sent from the acknowledged offset, leaves the hub with everything up to the chunk's end. */
  lemma ResentIsReceived(prior: Bytes, trace: seq<State>, steps: seq<Step>, i: nat, j: nat, c: Chunk)
    requires Execution(prior, trace, steps) && AllAdoptOwn(trace, steps) && i <= j < |steps|
    requires trace[i].track.Some? && c.offset == trace[i].track.value.ackOff
    requires steps[j] == Deliver(c) && trace[j].hub.Some? && trace[j].hub.value.hasPath
    ensures |trace[j + 1].received| >= c.offset + |c.data|
    ensures Ack(|trace[j + 1].received|, false) in trace[j + 1].acks
  {
    InvAlong(trace[0], trace, steps, i);
    InvAlong(trace[0], trace, steps, j);
    FileOnlyGrows(prior, trace, steps, i, j);
    var s := trace[j];
    assert SliceOf(s.written, c);
    ReceiveExtends(s.written, s.received, s.hub.value, c);
  }

  /** From every state that such an execution reaches with a finished attempt, a worker that keeps track of it
      and a hub that has adopted it, sending what the hub lacks completes the copy and deletes the spool. */
  lemma SpoolGetsThrough(prior: Bytes, trace: seq<State>, steps: seq<Step>)
    returns (trace': seq<State>, steps': seq<Step>)
    requires Execution(prior, trace, steps) && AllAdoptOwn(trace, steps)
    requires var s := trace[|steps|]; s.finished && s.spooled && s.track.Some? && s.hub.Some? && s.hub.value.hasPath
    ensures Execution(prior, trace', steps') && steps <= steps' && |steps'| == |steps| + 4
    ensures var s := trace'[|steps'|]; s.received == s.written == trace[|steps|].written && !s.spooled
  {
    var s := trace[|steps|];
    InvAlong(trace[0], trace, steps, |steps|);
    var n := |s.received|;
    var c := Chunk(n, s.written[n..|s.written|], true);
    trace', steps', s := Then(trace[0], trace, steps, s, NoticeExit);
    trace', steps', s := Then(trace[0], trace', steps', s, Send(c));
    assert Taken(s.hub.value, c) == c.data && s.received + c.data == s.written;
    trace', steps', s := Then(trace[0], trace', steps', s, Deliver(c));
    assert s.received == s.written;
    trace', steps', s := Then(trace[0], trace', steps', s, TakeAck(Ack(|s.written|, false)));
  }

  // ---- an adoption that finds other bytes ----

  /** With later adoptions that find only the attempt's own bytes. */
  ghost predicate CanLose(s: State) {
    exists trace: seq<State>, steps: seq<Step> ::
      Path(s, trace, steps) && AllAdoptOwn(trace, steps) && !NothingLost(trace[|steps|])
  }

  /** The attempt's whole output, once it is over. */
  predicate AllThere(s: State) {
    s.finished && s.received == s.written
  }

  lemma Then(start: State, trace: seq<State>, steps: seq<Step>, s: State, step: Step)
    returns (trace': seq<State>, steps': seq<Step>, s': State)
    requires Path(start, trace, steps) && trace[|steps|] == s && Enabled(s, step)
    ensures s' == Do(s, step) && Path(start, trace', steps') && trace'[|steps'|] == s'
    ensures trace' == trace + [s'] && steps' == steps + [step]
  {
    s' := Do(s, step);
    trace', steps' := trace + [s'], steps + [step];
  }

  /** The attempt writes more than the hub has, and ends. */
  lemma EndUnreceived(start: State) returns (trace: seq<State>, steps: seq<Step>, s: State)
    requires start.received <= start.written && !AllThere(start)
    ensures Path(start, trace, steps) && trace[|steps|] == s && forall i :: 0 <= i < |steps| ==> !steps[i].Adopt?
    ensures s == start.(written := s.written, finished := true) && |s.received| < |s.written|
  {
    s := start;
    trace, steps := [s], [];
    if !s.finished {
      trace, steps, s := Then(start, trace, steps, s, Output([0]));
      trace, steps, s := Then(start, trace, steps, s, Finish);
    }
  }

  /** Its whole spool is sent again: what lies below the mark is dropped, and all of it acknowledged. */
  lemma MarkAheadLoses(s: State)
    requires s.received <= s.written && !AllThere(s) && s.spooled && s.track.Some?
    requires s.hub.Some? && s.hub.value.hasPath && s.hub.value.hw > |s.received|
    ensures CanLose(s)
  {
    var trace, steps, t := EndUnreceived(s);
    var c := Chunk(0, t.written, false);
    assert t.written[0..|t.written|] == t.written;
    trace, steps, t := Then(s, trace, steps, t, NoticeExit);
    trace, steps, t := Then(s, trace, steps, t, Send(c));
    var r := Receive(t.file, t.hub.value, c);
    trace, steps, t := Then(s, trace, steps, t, Deliver(c));
    assert |t.received| < |t.written| && r.ack.offset >= |t.written|;
    trace, steps, t := Then(s, trace, steps, t, TakeAck(r.ack));
    assert !NothingLost(t);
  }

  /** With a mark ahead of it but nothing left to write, or nobody to delete the spool, nothing is lost. */
  ghost predicate Harmless(s: State) {
    && (s.track.None? ==> s.finished)
    && (AllThere(s) || (s.finished && s.track.None? && s.spooled))
    && (forall c :: c in s.chunks ==> SliceOf(s.written, c))
    && (s.hub.Some? && s.hub.value.hasPath ==> s.hub.value.hw >= |s.received|)
    && |s.received| <= |s.file|
  }

  lemma HarmlessStep(s: State, step: Step)
    requires Harmless(s) && Enabled(s, step) && AdoptsOwn(s, step)
    ensures Harmless(Do(s, step))
  {
    if step.Deliver? && AllThere(s) {
      assert SliceOf(s.written, step.c);
      assert Taken(s.hub.value, step.c) == [];
    }
  }

  lemma {:induction false} HarmlessAlong(start: State, trace: seq<State>, steps: seq<Step>, i: nat)
    requires Harmless(start) && Path(start, trace, steps) && AllAdoptOwn(trace, steps) && i < |trace|
    ensures Harmless(trace[i])
    decreases i
  {
    if i > 0 {
      HarmlessAlong(start, trace, steps, i - 1);
      assert AdoptsOwn(trace[i - 1], steps[i - 1]);
      HarmlessStep(trace[i - 1], steps[i - 1]);
    }
  }

  /** After adoptions that all found only the attempt's own bytes, one more makes a loss possible if and only
      if it does not, something of the attempt is still to be received, and a worker keeps track of it. */
  lemma AdoptionLosesIff(prior: Bytes, trace: seq<State>, steps: seq<Step>)
    requires Execution(prior, trace, steps) && AllAdoptOwn(trace, steps) && Enabled(trace[|steps|], Adopt(true))
    ensures var s := trace[|steps|];
            CanLose(Do(s, Adopt(true))) <==> |s.file| != |s.received| && !AllThere(s) && s.track.Some?
  {
    var s := trace[|steps|];
    InvAlong(trace[0], trace, steps, |steps|);
    var s' := Do(s, Adopt(true));
    if |s.file| == |s.received| {
      InvStep(s, Adopt(true));
      NeverFrom(s');
    } else if AllThere(s) || s.track.None? {
      forall later: seq<State>, more: seq<Step> | Path(s', later, more) && AllAdoptOwn(later, more)
        ensures NothingLost(later[|more|])
      {
        HarmlessAlong(s', later, more, |more|);
      }
    } else {
      MarkAheadLoses(s');
    }
  }

  lemma NeverFrom(s: State)
    requires Inv(s)
    ensures !CanLose(s)
  {
    forall trace: seq<State>, steps: seq<Step> | Path(s, trace, steps) && AllAdoptOwn(trace, steps)
      ensures NothingLost(trace[|steps|])
    {
      InvAlong(s, trace, steps, |steps|);
    }
  }

  // ---- which files are safe ----

  /** `alone`: other attempts' chunks do not arrive. */
  ghost predicate NeverLoses(prior: Bytes, alone: bool) {
    forall trace: seq<State>, steps: seq<Step>, i: nat ::
      Execution(prior, trace, steps) && (alone ==> Alone(steps)) && i < |trace| ==> NothingLost(trace[i])
  }

  /** The hub restarts before it has received anything, and adopts the attempt over a file that holds other
      bytes: those it held at the assignment, or a late chunk of another attempt. */
  lemma LosingRun(prior: Bytes, late: Bytes) returns (trace: seq<State>, steps: seq<Step>)
    requires prior != [] || late != []
    ensures Execution(prior, trace, steps) && (late == [] ==> Alone(steps))
    ensures !NothingLost(trace[|steps|])
  {
    var start := State([], false, true, Some(Track(0, false, false)), false, prior, [], Some(HubRef(true, 0)), {}, {});
    var s := start;
    trace, steps := [s], [];
    if late != [] {
      trace, steps, s := Then(start, trace, steps, s, Foreign(late));
    }
    trace, steps, s := Then(start, trace, steps, s, HubForgets);
    trace, steps, s := Then(start, trace, steps, s, Hello);
    trace, steps, s := Then(start, trace, steps, s, Adopt(true));
    trace, steps := LoseFrom(start, trace, steps, s);
  }

  lemma LoseFrom(start: State, trace: seq<State>, steps: seq<Step>, s: State)
    returns (trace': seq<State>, steps': seq<Step>)
    requires Path(start, trace, steps) && trace[|steps|] == s
    requires s == start.(file := s.file, hub := Some(HubRef(true, |s.file|))) && s.file != []
    requires start.written == [] && start.received == [] && start.track == Some(Track(0, false, false))
    requires !start.finished && start.spooled
    ensures Path(start, trace', steps') && steps <= steps' && !NothingLost(trace'[|steps'|])
    ensures forall i :: |steps| <= i < |steps'| ==> !steps'[i].Foreign?
  {
    var c := Chunk(0, [0], false);
    var t;
    trace', steps', t := Then(start, trace, steps, s, Output([0]));
    trace', steps', t := Then(start, trace', steps', t, Finish);
    trace', steps', t := Then(start, trace', steps', t, NoticeExit);
    trace', steps', t := Then(start, trace', steps', t, Send(c));
    trace', steps', t := Then(start, trace', steps', t, Deliver(c));
    trace', steps', t := Then(start, trace', steps', t, TakeAck(Ack(|s.file|, false)));
  }

  /** Deleting the spool is safe, in every execution, if and only if the log file was empty when the attempt was
      assigned and no other attempt's chunks arrive. The file is per task, not per attempt, so a retried task's
      is not empty. */
  lemma SpoolDeletionSafeIff(prior: Bytes, alone: bool)
    ensures NeverLoses(prior, alone) <==> prior == [] && alone
  {
    if prior == [] && alone {
      forall trace: seq<State>, steps: seq<Step>, i: nat |
        Execution(prior, trace, steps) && Alone(steps) && i < |trace|
        ensures NothingLost(trace[i])
      {
        EmptyAndAloneAdoptOwn(trace, steps);
        ReceivedIsPrefix(prior, trace, steps, i);
      }
    } else {
      var trace, steps := LosingRun(prior, if alone then [] else [0]);
      assert !NothingLost(trace[|steps|]);
    }
  }
}
