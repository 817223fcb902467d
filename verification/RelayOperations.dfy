/** What each call and each worker step of the WebSocket transport comes to, and a whole
    graceful close (internal/transport/relay.go). */
module RelayOperations {
  import opened Prelude
  import opened Transport
  import opened RelayTransport

  /** A frame is taken exactly if it fits, the transport is neither closing nor closed, and
      there is room; nothing else changes. */
  lemma SendComesTo(s: State, frame: Frame)
    requires Inv(s)
    ensures Step(s, CallSend(frame)) ==
      if |frame.data| <= s.maxSend && !s.closing && !s.closed && |s.queue| < s.capacity
      then s.(queue := s.queue + [frame], accepted := s.accepted + [frame]) else s
  {
  }

  /** Closing an open transport closes the send channel; anything else changes nothing. */
  lemma CloseComesTo(s: State)
    requires Inv(s)
    ensures Step(s, CallClose) == if s.closing || s.closed then s else s.(closing := true, sendCloses := 1)
  {
  }

  /** The writer takes the oldest frame and writes it; a failed write, or a send channel that
      is closed and empty, brings it to the shutdown. */
  lemma WriterComesTo(s: State)
    requires Inv(s) && s.writer == Looping
    ensures s.queue != [] ==>
      && Step(Step(s, Take), Write(true)) == s.(queue := s.queue[1..], written := s.written + [s.queue[0]])
      && var t := Step(Step(s, Take), Write(false)); t.written == s.written && t.writer == Terminating(WriteFailed)
    ensures Step(s, SeeClosed) == if s.queue == [] && s.closing then s.(writer := Terminating(Drained)) else s
  {
    if s.queue != [] {
      var taken := Step(s, Take);
      assert taken == s.(writer := Handling, hand := [s.queue[0]], queue := s.queue[1..]);
    }
  }

  /** The reader hands on the frame it read if there is room, and comes to the shutdown if
      there is none or reading fails. */
  lemma ReaderComesTo(s: State, frame: Frame)
    requires Inv(s) && s.reader == Looping && s.doneCloses == 0
    ensures var t := Step(Step(s, ReadFrame(frame)), Push);
      if |s.receive| < s.capacity then t == s.(receive := s.receive + [frame], pushed := s.pushed + [frame], incoming := [])
      else t.receive == s.receive && t.pushed == s.pushed && t.reader == Terminating(ReceiveFull)
    ensures Step(s, ReadError(true)) == s.(reader := Terminating(ReadTooLarge))
    ensures Step(s, ReadError(false)) == s.(reader := Terminating(ReadFailed))
  {
    var t := Step(s, ReadFrame(frame));
    assert t == s.(reader := Handling, incoming := [frame]);
  }

  /** A receiver gets the oldest frame, and the final error once there is none and the
      transport is shut down. */
  lemma ReceiveComesTo(s: State)
    requires Inv(s)
    ensures s.receive != [] ==> Step(s, ReceiveFrame) == s.(receive := s.receive[1..], delivered := s.delivered + [s.receive[0]])
    ensures s.receive == [] && s.doneCloses == 1 ==>
      s.finalErr.Some? && Step(s, ReceiveTerminal) == s.(terminals := s.terminals + [s.finalErr.value])
    ensures s.receive != [] || s.doneCloses == 0 ==> Step(s, ReceiveTerminal) == s
  {
  }

  /** The first worker to come to the shutdown runs it: the error is too-large for a frame
      above the limit, backpressure for a full receive queue, and closed for everything else. */
  lemma ShutdownComesTo(s: State, w: Worker)
    requires Inv(s) && s.once == NotRun && PhaseOf(s, w).Terminating?
    ensures var cause := PhaseOf(s, w).cause;
      var e := TerminateStep(w);
      var t := Step(Step(Step(Step(s, e), e), e), e);
      && t.closed && t.doneCloses == 1 && t.once == Finished(cause)
      && t.finalErr == Some(if cause == ReadTooLarge then FrameTooLarge else if cause == ReceiveFull then Backpressure else Closed)
      && t.written == s.written && t.accepted == s.accepted && t.queue == s.queue && t.receive == s.receive
      && PhaseOf(Step(t, e), w) == Exited && Step(t, e).finalErr == t.finalErr
  {
    var cause := PhaseOf(s, w).cause;
    var s1 := OnceStep(s, w);
    assert s1 == s.(once := Entered(w, cause));
    var s2 := OnceStep(s1, w);
    assert s2 == s.(closed := true, finalErr := Some(ErrorOf(cause)), once := Marked(cause));
    var s3 := OnceStep(s2, w);
    assert s3 == s2.(once := Cancelled(cause));
    var s4 := OnceStep(s3, w);
    assert s4.finalErr == Some(ErrorOf(cause)) && s4.once == Finished(cause) && s4.doneCloses == s.doneCloses + 1;
  }

  /** The writer writes `n` frames, one after the other. */
  function Writes(n: nat): seq<Event> {
    if n == 0 then [] else [Take, Write(true)] + Writes(n - 1)
  }

  lemma WritesUnfold(s: State, n: nat)
    requires n > 0
    ensures Run(s, Writes(n)) == Run(Step(Step(s, Take), Write(true)), Writes(n - 1))
  {
    assert Writes(n)[1..][1..] == Writes(n - 1);
  }

  lemma OneWrite(s: State)
    requires Inv(s) && s.writer == Looping && s.queue != []
    ensures var t := Step(Step(s, Take), Write(true));
      Inv(t) && t == s.(queue := s.queue[1..], written := s.written + [s.queue[0]])
  {
    WriterComesTo(s);
    StepKeepsInv(s, Take);
    StepKeepsInv(Step(s, Take), Write(true));
  }

  lemma {:induction false} WritesEverything(s: State)
    requires Inv(s) && s.writer == Looping
    ensures Run(s, Writes(|s.queue|)) == s.(queue := [], written := s.written + s.queue)
    decreases |s.queue|
  {
    if s.queue == [] {
      assert s.written + s.queue == s.written;
    } else {
      WritesUnfold(s, |s.queue|);
      OneWrite(s);
      WritesEverything(Step(Step(s, Take), Write(true)));
      assert s.written + s.queue == (s.written + [s.queue[0]]) + s.queue[1..];
    }
  }

  /** A graceful close: after Close, a writer that nothing fails writes every accepted frame,
      and then shuts the transport down with the closed error. */
  lemma GracefulCloseComesTo(s: State)
    requires Inv(s) && s.writer == Looping && !s.closing && !s.closed && s.once == NotRun
    ensures var drained := Step(Run(Step(s, CallClose), Writes(|s.queue|)), SeeClosed);
      var e := TerminateStep(Writer);
      var t := Step(Step(Step(Step(drained, e), e), e), e);
      t.written == t.accepted == s.accepted && t.doneCloses == 1 && t.finalErr == Some(Closed)
  {
    CloseComesTo(s);
    var closing := Step(s, CallClose);
    StepKeepsInv(s, CallClose);
    WritesEverything(closing);
    var written := Run(closing, Writes(|s.queue|));
    RunKeepsInv(closing, Writes(|s.queue|));
    WriterComesTo(written);
    var drained := Step(written, SeeClosed);
    StepKeepsInv(written, SeeClosed);
    ShutdownComesTo(drained, Writer);
  }
}
