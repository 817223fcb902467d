/** The WebSocket transport: callers, a reader, a writer and a heartbeat share two
    channels, a mutex and a once-only shutdown (internal/transport/relay.go). */
module RelayTransport {
  import opened Prelude
  import opened Transport

  // --- The transport object ---------------------------------------------------

  /** The mutex-protected sections of the transport. That the channels' preconditions
      hold in them is the proof that they never panic. */
  class Relay {
    const send: Channel<Frame>
    const done: Channel<()>
    const maxSend: nat
    var closing: bool
    var closed: bool
    var finalErr: Option<TransportError>
    var terminated: bool

    ghost predicate Valid()
      reads this, send, done
    {
      && send as object != done as object
      && send.Valid() && done.Valid()
      && send.closed == closing && done.closed == terminated
      && (finalErr.Some? <==> closed) && (terminated ==> closed)
    }

    constructor (capacity: nat, maxSend: nat)
      ensures Valid() && fresh(send) && fresh(done)
      ensures !closing && !closed && !terminated && send.queue == [] && send.capacity == capacity && this.maxSend == maxSend
    {
      send := new Channel(capacity);
      done := new Channel(0);
      this.maxSend := maxSend;
      closing, closed, finalErr, terminated := false, false, None, false;
      new;
    }

    /** A frame is accepted exactly when it fits and the transport is open with room. */
    method Send(canceled: bool, frame: Frame) returns (error: Option<TransportError>)
      requires Valid()
      modifies send
      ensures Valid()
      ensures error == if canceled then Some(Canceled) else if |frame.data| > maxSend then Some(FrameTooLarge)
        else if closing || closed then Some(Closed) else if |old(send.queue)| == send.capacity then Some(Backpressure) else None
      ensures send.queue == if error.None? then old(send.queue) + [frame] else old(send.queue)
    {
      if canceled { return Some(Canceled); }
      if |frame.data| > maxSend { return Some(FrameTooLarge); }
      if closing || closed { return Some(Closed); }
      var ok := send.TrySend(frame);
      return if ok then None else Some(Backpressure);
    }

    /** The locked part of `Close`. */
    method BeginClose()
      requires Valid()
      modifies this`closing, send
      ensures Valid()
      ensures closing == (old(closing) || !closed)
      ensures send.queue == old(send.queue)
    {
      if !closing && !closed {
        closing := true;
        send.Close();
      }
    }

    /** Only the first call takes effect; its error is the one that stays. */
    method Terminate(err: Option<TransportError>)
      requires Valid() && (closed ==> terminated)
      modifies this`closed, this`finalErr, this`terminated, done
      ensures Valid() && closed && terminated
      ensures finalErr == if old(terminated) then old(finalErr) else if err.None? then Some(Closed) else err
    {
      if terminated { return; }
      closed := true;
      finalErr := if err.None? then Some(Closed) else err;
      done.Close();
      terminated := true;
    }

    method TerminalError() returns (err: TransportError)
      requires Valid()
      ensures closed ==> Some(err) == finalErr
      ensures !closed ==> err == Closed
    {
      if finalErr.Some? { return finalErr.value; }
      return Closed;
    }
  }

  // --- The interleaved system ----------------------------------------------------

  datatype Worker = Reader | Writer | Heartbeat

  /** Why a worker calls `terminate`; `Drained` is the writer finding the send channel closed and empty. */
  datatype Cause = ReadFailed | ReadTooLarge | ReceiveFull | Drained | WriteFailed | BeatFailed

  function ErrorOf(cause: Cause): TransportError {
    match cause
    case ReadTooLarge => FrameTooLarge
    case ReceiveFull => Backpressure
    case _ => Closed
  }

  /** What a worker is doing: its loop's select or call, handling one frame, calling
      `terminate`, or gone. */
  datatype Phase = Looping | Handling | Terminating(cause: Cause) | Exited

  /** The body of the `sync.Once`: who runs it and how far it is. */
  datatype Once = NotRun | Entered(runner: Worker, cause: Cause) | Marked(cause: Cause) | Cancelled(cause: Cause) | Finished(cause: Cause)

  datatype State = State(
    capacity: nat, maxSend: nat,
    closing: bool, closed: bool, finalErr: Option<TransportError>, once: Once,
    queue: seq<Frame>, sendCloses: nat, doneCloses: nat, panicked: bool,
    receive: seq<Frame>, hand: seq<Frame>, incoming: seq<Frame>,
    reader: Phase, writer: Phase, beat: Phase,
    accepted: seq<Frame>, written: seq<Frame>, pushed: seq<Frame>, delivered: seq<Frame>, terminals: seq<TransportError>)

  datatype Event =
    | CallSend(frame: Frame)
    | CallClose
    | Take
    | SeeClosed
    | Write(ok: bool)
    | ReadFrame(frame: Frame)
    | ReadError(tooLarge: bool)
    | Push
    | BeatError
    | SeeDone(w: Worker)
    | TerminateStep(w: Worker)
    | ReceiveFrame
    | ReceiveTerminal

  function Init(capacity: nat, maxSend: nat): State {
    State(capacity, maxSend, false, false, None, NotRun, [], 0, 0, false, [], [], [], Looping, Looping, Looping, [], [], [], [], [])
  }

  function SendStep(s: State, frame: Frame): State {
    if |frame.data| > s.maxSend || s.closing || s.closed then s
    else if s.sendCloses > 0 then s.(panicked := true)
    else if |s.queue| < s.capacity then s.(queue := s.queue + [frame], accepted := s.accepted + [frame])
    else s
  }

  function CloseStep(s: State): State {
    if s.closing || s.closed then s
    else s.(closing := true, sendCloses := s.sendCloses + 1, panicked := s.panicked || s.sendCloses > 0)
  }

  function PhaseOf(s: State, w: Worker): Phase {
    match w case Reader => s.reader case Writer => s.writer case Heartbeat => s.beat
  }

  function WithPhase(s: State, w: Worker, p: Phase): State {
    match w case Reader => s.(reader := p) case Writer => s.(writer := p) case Heartbeat => s.(beat := p)
  }

  function WriterStep(s: State, e: Event): State {
    match e
    case Take =>
      if s.writer.Looping? && s.queue != [] then s.(writer := Handling, hand := [s.queue[0]], queue := s.queue[1..]) else s
    case SeeClosed =>
      if s.writer.Looping? && s.queue == [] && s.sendCloses > 0 then s.(writer := Terminating(Drained)) else s
    case Write(ok) =>
      if !s.writer.Handling? then s
      else if ok then s.(writer := Looping, written := s.written + s.hand, hand := [])
      else s.(writer := Terminating(WriteFailed))
    case _ => s
  }

  function ReaderStep(s: State, e: Event): State {
    match e
    case ReadFrame(frame) => if s.reader.Looping? then s.(reader := Handling, incoming := [frame]) else s
    case ReadError(tooLarge) =>
      if s.reader.Looping? then s.(reader := Terminating(if tooLarge then ReadTooLarge else ReadFailed)) else s
    case Push =>
      if !s.reader.Handling? then s
      else if |s.receive| < s.capacity then
        s.(reader := Looping, receive := s.receive + s.incoming, pushed := s.pushed + s.incoming, incoming := [])
      else if s.doneCloses == 0 then s.(reader := Terminating(ReceiveFull)) else s
    case _ => s
  }

  /** One step of a worker inside `terminate`: enter the once, or wait for it, then exit. */
  function OnceStep(s: State, w: Worker): State {
    if !PhaseOf(s, w).Terminating? then s
    else
      match s.once
      case NotRun => s.(once := Entered(w, PhaseOf(s, w).cause))
      case Entered(runner, cause) => if runner == w then s.(closed := true, finalErr := Some(ErrorOf(cause)), once := Marked(cause)) else s
      case Marked(cause) => s.(once := Cancelled(cause))
      case Cancelled(cause) => s.(once := Finished(cause), doneCloses := s.doneCloses + 1, panicked := s.panicked || s.doneCloses > 0)
      case Finished(cause) => WithPhase(s, w, Exited)
  }

  function Step(s: State, e: Event): State {
    match e
    case CallSend(frame) => SendStep(s, frame)
    case CallClose => CloseStep(s)
    case BeatError => if s.beat.Looping? then s.(beat := Terminating(BeatFailed)) else s
    case SeeDone(w) =>
      if s.doneCloses > 0 && PhaseOf(s, w) == (if w == Reader then Handling else Looping) then WithPhase(s, w, Exited) else s
    case TerminateStep(w) => OnceStep(s, w)
    case ReceiveFrame =>
      if s.receive == [] then s else s.(receive := s.receive[1..], delivered := s.delivered + [s.receive[0]])
    case ReceiveTerminal =>
      if s.doneCloses == 0 || s.receive != [] then s
      else s.(terminals := s.terminals + [if s.finalErr.Some? then s.finalErr.value else Closed])
    case _ => ReaderStep(WriterStep(s, e), e)
  }

  function Run(s: State, es: seq<Event>): State
    decreases |es|
  {
    if es == [] then s else Run(Step(s, es[0]), es[1..])
  }

  // --- What every step keeps --------------------------------------------------------

  ghost predicate ShutdownOk(s: State) {
    && !s.panicked
    && s.sendCloses == (if s.closing then 1 else 0)
    && s.doneCloses == (if s.once.Finished? then 1 else 0)
    && (s.closed <==> s.once.Marked? || s.once.Cancelled? || s.once.Finished?)
    && s.finalErr == (if s.closed then Some(ErrorOf(s.once.cause)) else None)
    && (s.once.Entered? ==> PhaseOf(s, s.once.runner) == Terminating(s.once.cause))
    && (s.reader.Exited? || s.writer.Exited? || s.beat.Exited? ==> s.once.Finished?)
  }

  /** Every accepted frame is written, in the writer's hand, or queued, in that order. */
  ghost predicate Conserved(accepted: seq<Frame>, written: seq<Frame>, hand: seq<Frame>, queue: seq<Frame>) {
    accepted == written + hand + queue
  }

  ghost predicate Fitting(frames: seq<Frame>, limit: nat) {
    forall i :: 0 <= i < |frames| ==> |frames[i].data| <= limit
  }

  ghost predicate QueueOk(accepted: seq<Frame>, written: seq<Frame>, hand: seq<Frame>, queue: seq<Frame>, capacity: nat, maxSend: nat) {
    Conserved(accepted, written, hand, queue) && |queue| <= capacity && Fitting(accepted, maxSend)
  }

  /** The drained branch is only reached with nothing left to write. */
  ghost predicate DrainOk(writer: Phase, once: Once, closing: bool, hand: seq<Frame>, queue: seq<Frame>) {
    && (writer == Looping || writer == Terminating(Drained) ==> hand == [])
    && (writer == Terminating(Drained) ==> closing && queue == [])
    && (!once.NotRun? && once.cause == Drained ==> closing && queue == [] && hand == [])
  }

  ghost predicate SendOk(s: State) {
    && QueueOk(s.accepted, s.written, s.hand, s.queue, s.capacity, s.maxSend)
    && DrainOk(s.writer, s.once, s.closing, s.hand, s.queue)
  }

  ghost predicate DrainIsWriters(s: State) {
    && s.reader != Terminating(Drained) && s.beat != Terminating(Drained)
    && (!s.once.NotRun? && s.once.cause == Drained ==> s.writer == Terminating(Drained) || s.writer == Exited)
  }

  ghost predicate ReceivedOk(pushed: seq<Frame>, delivered: seq<Frame>, receive: seq<Frame>, capacity: nat) {
    pushed == delivered + receive && |receive| <= capacity
  }

  ghost predicate TerminalsOk(terminals: seq<TransportError>, finalErr: Option<TransportError>) {
    forall i :: 0 <= i < |terminals| ==> finalErr == Some(terminals[i])
  }

  ghost predicate ReceiveOk(s: State) {
    && ReceivedOk(s.pushed, s.delivered, s.receive, s.capacity)
    && TerminalsOk(s.terminals, s.finalErr)
    && (s.reader == Handling ==> |s.incoming| == 1)
  }

  ghost predicate Inv(s: State) {
    ShutdownOk(s) && SendOk(s) && DrainIsWriters(s) && ReceiveOk(s)
  }

  lemma CallsKeepShutdown(s: State, frame: Frame)
    requires ShutdownOk(s)
    ensures ShutdownOk(SendStep(s, frame)) && ShutdownOk(CloseStep(s))
  {
  }

  lemma LoopsKeepShutdown(s: State, e: Event)
    requires ShutdownOk(s)
    ensures ShutdownOk(ReaderStep(s, e)) && ShutdownOk(WriterStep(s, e))
  {
  }

  lemma OnceKeepsShutdown(s: State, w: Worker)
    requires ShutdownOk(s)
    ensures ShutdownOk(OnceStep(s, w))
  {
  }

  lemma StepKeepsShutdown(s: State, e: Event)
    requires ShutdownOk(s)
    ensures ShutdownOk(Step(s, e))
  {
    match e
    case CallSend(frame) => CallsKeepShutdown(s, frame);
    case CallClose => CallsKeepShutdown(s, Frame([]));
    case TerminateStep(w) => OnceKeepsShutdown(s, w);
    case BeatError =>
    case SeeDone(w) =>
    case ReceiveFrame =>
    case ReceiveTerminal =>
    case _ =>
      LoopsKeepShutdown(s, e);
      LoopsKeepShutdown(WriterStep(s, e), e);
  }

  lemma CallSendKeepsSend(s: State, frame: Frame)
    requires ShutdownOk(s) && SendOk(s)
    ensures SendOk(SendStep(s, frame))
  {
    assert s.written + s.hand + (s.queue + [frame]) == s.written + s.hand + s.queue + [frame];
  }

  lemma WriterKeepsSend(s: State, e: Event)
    requires ShutdownOk(s) && SendOk(s)
    ensures SendOk(WriterStep(s, e))
  {
    var t := WriterStep(s, e);
    if e.Take? && t != s {
      assert s.queue == [s.queue[0]] + s.queue[1..];
      assert Conserved(t.accepted, t.written, t.hand, t.queue);
    }
    if e.Write? && t != s {
      assert Conserved(t.accepted, t.written, t.hand, t.queue);
    }
  }

  lemma OnceKeepsSend(s: State, w: Worker)
    requires ShutdownOk(s) && SendOk(s) && DrainIsWriters(s)
    ensures SendOk(OnceStep(s, w)) && DrainIsWriters(OnceStep(s, w))
  {
  }

  lemma OtherKeepsSend(s: State, e: Event)
    requires ShutdownOk(s) && SendOk(s)
    requires !e.CallSend? && !e.TerminateStep? && !e.Take? && !e.SeeClosed? && !e.Write?
    ensures SendOk(Step(s, e))
  {
  }

  lemma StepKeepsSend(s: State, e: Event)
    requires ShutdownOk(s) && SendOk(s) && DrainIsWriters(s)
    ensures SendOk(Step(s, e))
  {
    match e
    case CallSend(frame) => CallSendKeepsSend(s, frame);
    case TerminateStep(w) => OnceKeepsSend(s, w);
    case Take => WriterKeepsSend(s, e);
    case SeeClosed => WriterKeepsSend(s, e);
    case Write(ok) => WriterKeepsSend(s, e);
    case _ => OtherKeepsSend(s, e);
  }

  lemma LoopsKeepDrain(s: State, e: Event)
    requires ShutdownOk(s) && DrainIsWriters(s)
    ensures DrainIsWriters(ReaderStep(s, e)) && DrainIsWriters(WriterStep(s, e))
  {
  }

  lemma StepKeepsDrain(s: State, e: Event)
    requires ShutdownOk(s) && DrainIsWriters(s)
    ensures DrainIsWriters(Step(s, e))
  {
    match e
    case TerminateStep(w) => OnceKeepsDrain(s, w);
    case CallSend(_) =>
    case CallClose =>
    case BeatError =>
    case SeeDone(w) =>
    case ReceiveFrame =>
    case ReceiveTerminal =>
    case _ =>
      LoopsKeepDrain(s, e);
      LoopsKeepShutdown(s, e);
      LoopsKeepDrain(WriterStep(s, e), e);
  }

  lemma OnceKeepsDrain(s: State, w: Worker)
    requires ShutdownOk(s) && DrainIsWriters(s)
    ensures DrainIsWriters(OnceStep(s, w))
  {
  }

  lemma OnceKeepsReceive(s: State, w: Worker)
    requires ShutdownOk(s) && ReceiveOk(s)
    ensures ReceiveOk(OnceStep(s, w))
  {
  }

  lemma ReaderKeepsReceive(s: State, e: Event)
    requires ReceiveOk(s)
    ensures ReceiveOk(ReaderStep(s, e))
  {
    if e.Push? { assert s.delivered + (s.receive + s.incoming) == s.delivered + s.receive + s.incoming; }
  }

  lemma StepKeepsReceive(s: State, e: Event)
    requires ShutdownOk(s) && ReceiveOk(s)
    ensures ReceiveOk(Step(s, e))
  {
    match e
    case TerminateStep(w) => OnceKeepsReceive(s, w);
    case ReadFrame(_) => ReaderKeepsReceive(s, e);
    case ReadError(_) => ReaderKeepsReceive(s, e);
    case Push => ReaderKeepsReceive(s, e);
    case _ =>
  }

  lemma StepKeepsInv(s: State, e: Event)
    requires Inv(s)
    ensures Inv(Step(s, e))
  {
    StepKeepsShutdown(s, e);
    StepKeepsSend(s, e);
    StepKeepsDrain(s, e);
    StepKeepsReceive(s, e);
  }

  lemma {:induction false} RunKeepsInv(s: State, es: seq<Event>)
    requires Inv(s)
    ensures Inv(Run(s, es))
    decreases |es|
  {
    if es != [] {
      StepKeepsInv(s, es[0]);
      RunKeepsInv(Step(s, es[0]), es[1..]);
    }
  }

  // --- Main results --------------------------------------------------------------------

  /** In every interleaving no channel is sent on after its close, and `send` and `done`
      are each closed at most once. */
  lemma ChannelsAreClosedOnce(capacity: nat, maxSend: nat, es: seq<Event>)
    ensures var s := Run(Init(capacity, maxSend), es);
      !s.panicked && s.sendCloses <= 1 && s.doneCloses <= 1
  {
    RunKeepsInv(Init(capacity, maxSend), es);
  }

  /** In every interleaving the frames written are an in-order prefix of the frames
      accepted; what is missing is exactly the frame in the writer's hand and the queue. */
  lemma WrittenIsPrefixOfAccepted(capacity: nat, maxSend: nat, es: seq<Event>)
    ensures var s := Run(Init(capacity, maxSend), es);
      s.written <= s.accepted && s.accepted[|s.written|..] == s.hand + s.queue
  {
    RunKeepsInv(Init(capacity, maxSend), es);
    var s := Run(Init(capacity, maxSend), es);
    assert s.accepted == s.written + (s.hand + s.queue);
  }

  /** If the shutdown was first reached through the drained send channel, every accepted
      frame was written. */
  lemma GracefulCloseWritesEverything(capacity: nat, maxSend: nat, es: seq<Event>)
    requires !Run(Init(capacity, maxSend), es).once.NotRun? && Run(Init(capacity, maxSend), es).once.cause == Drained
    ensures Run(Init(capacity, maxSend), es).written == Run(Init(capacity, maxSend), es).accepted
  {
    RunKeepsInv(Init(capacity, maxSend), es);
  }

  /** Whoever shuts the transport down: once the writer has found the send channel closed and
      empty, every accepted frame was written. */
  lemma DrainedWriterWroteEverything(capacity: nat, maxSend: nat, es: seq<Event>)
    requires Run(Init(capacity, maxSend), es).writer == Terminating(Drained)
    ensures Run(Init(capacity, maxSend), es).written == Run(Init(capacity, maxSend), es).accepted
  {
    RunKeepsInv(Init(capacity, maxSend), es);
  }

  lemma TerminalsAreTheCause(s: State)
    requires ShutdownOk(s) && TerminalsOk(s.terminals, s.finalErr)
    ensures s.terminals == [] || (!s.once.NotRun? && forall i :: 0 <= i < |s.terminals| ==> s.terminals[i] == ErrorOf(s.once.cause))
  {
    if s.terminals != [] { assert s.finalErr == Some(s.terminals[0]); }
  }

  /** Every received frame was read from the connection in order, and every terminal
      error is the error of the call that shut the transport down. */
  lemma ReceiverSeesOneError(capacity: nat, maxSend: nat, es: seq<Event>)
    ensures var s := Run(Init(capacity, maxSend), es);
      && s.delivered <= s.pushed
      && (s.terminals == [] || (!s.once.NotRun? && forall i :: 0 <= i < |s.terminals| ==> s.terminals[i] == ErrorOf(s.once.cause)))
  {
    RunKeepsInv(Init(capacity, maxSend), es);
    TerminalsAreTheCause(Run(Init(capacity, maxSend), es));
  }

  ghost predicate WorkersGone(s: State) {
    s.reader.Exited? && s.writer.Exited? && s.beat.Exited?
  }

  /** Once the workers `Close` waits for are gone, the transport is shut down and
      nothing is accepted or written any more. */
  lemma {:induction false} QuietAfterClose(s: State, es: seq<Event>)
    requires Inv(s) && WorkersGone(s)
    ensures s.doneCloses == 1 && WorkersGone(Run(s, es))
    ensures Run(s, es).written == s.written && Run(s, es).accepted == s.accepted
    decreases |es|
  {
    if es != [] {
      StepKeepsInv(s, es[0]);
      QuietAfterClose(Step(s, es[0]), es[1..]);
    }
  }
}
