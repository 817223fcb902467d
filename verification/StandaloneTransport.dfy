/** The in-process transport: two bounded queues between a Server and a Node endpoint
    (internal/transport/standalone.go). */
module StandaloneTransport {
  import opened Prelude
  import opened Transport

  // --- The objects --------------------------------------------------------------

  /** One direction. `accepted` and `delivered` record every frame that ever passed. */
  class Direction {
    const queue: Channel<Frame>
    var senderClosed: bool
    var receiverClosed: bool
    ghost var accepted: seq<Frame>
    ghost var delivered: seq<Frame>

    ghost predicate Valid()
      reads this, queue
    {
      queue.Valid() && queue.closed == senderClosed && accepted == delivered + queue.queue
    }

    constructor (capacity: nat)
      ensures Valid() && fresh(queue) && queue.capacity == capacity
      ensures accepted == [] && delivered == [] && !senderClosed && !receiverClosed
    {
      queue := new Channel(capacity);
      senderClosed, receiverClosed := false, false;
      accepted, delivered := [], [];
      new;
    }

    method Send(frame: Frame) returns (error: Option<TransportError>)
      requires Valid()
      modifies this`accepted, queue
      ensures Valid() && delivered == old(delivered) && senderClosed == old(senderClosed) && receiverClosed == old(receiverClosed)
      ensures error == if senderClosed || receiverClosed then Some(Closed)
        else if |old(queue.queue)| == queue.capacity then Some(Backpressure) else None
      ensures accepted == if error.None? then old(accepted) + [frame] else old(accepted)
    {
      if senderClosed || receiverClosed { return Some(Closed); }
      var ok := queue.TrySend(frame);
      if !ok { return Some(Backpressure); }
      accepted := accepted + [frame];
      return None;
    }

    /** The receive branch of the select: it finds a frame, or a closed and drained queue. */
    method Receive() returns (frame: Option<Frame>)
      requires Valid() && (queue.queue != [] || senderClosed)
      modifies this`delivered, queue
      ensures Valid() && accepted == old(accepted)
      ensures frame.None? <==> old(delivered) == old(accepted)
      ensures frame.Some? ==> |old(delivered)| < |accepted| && frame.value == accepted[|old(delivered)|] && delivered == old(delivered) + [frame.value]
      ensures frame.None? ==> delivered == old(delivered)
    {
      frame := queue.Receive();
      if frame.Some? { delivered := delivered + [frame.value]; }
    }

    method CloseSender()
      requires Valid()
      modifies this`senderClosed, queue
      ensures Valid() && senderClosed
    {
      if senderClosed { return; }
      senderClosed := true;
      queue.Close();
    }

    method CloseReceiver()
      requires Valid()
      modifies this`receiverClosed
      ensures Valid() && receiverClosed
    {
      receiverClosed := true;
    }
  }

  class Endpoint {
    const input: Direction
    const output: Direction
    const maxSend: nat
    const done: Channel<()>

    ghost predicate Valid()
      reads this, input, input.queue, output, output.queue, done
    {
      && input.Valid() && output.Valid() && done.Valid() && input != output && input.queue != output.queue
      && done as object !in {input.queue, output.queue}
    }

    constructor (input: Direction, output: Direction, maxSend: nat)
      requires input.Valid() && output.Valid() && input != output && input.queue != output.queue
      ensures Valid() && this.input == input && this.output == output && this.maxSend == maxSend && fresh(done) && !done.closed
    {
      this.input, this.output, this.maxSend := input, output, maxSend;
      done := new Channel(0);
      new;
    }

    method Send(canceled: bool, frame: Frame) returns (error: Option<TransportError>)
      requires Valid()
      modifies output, output.queue
      ensures Valid()
      ensures error == if canceled then Some(Canceled) else if done.closed then Some(Closed)
        else if |frame.data| > maxSend then Some(FrameTooLarge)
        else if output.senderClosed || output.receiverClosed then Some(Closed)
        else if |old(output.queue.queue)| == output.queue.capacity then Some(Backpressure) else None
      ensures output.accepted == if error.None? then old(output.accepted) + [frame] else old(output.accepted)
      ensures output.senderClosed == old(output.senderClosed) && output.receiverClosed == old(output.receiverClosed) && output.delivered == old(output.delivered)
    {
      if canceled { return Some(Canceled); }
      if done.closed { return Some(Closed); }
      if |frame.data| > maxSend { return Some(FrameTooLarge); }
      error := output.Send(frame);
    }

    /** The body of the `sync.Once`; a second call finds `done` closed and does nothing. */
    method Close()
      requires Valid()
      modifies done, output, output.queue, input
      ensures Valid() && done.closed
      ensures !old(done.closed) ==> output.senderClosed && input.receiverClosed
    {
      if done.closed { return; }
      done.Close();
      output.CloseSender();
      input.CloseReceiver();
    }
  }

  /** Zero asks for the default capacity; each side may send frames of its own limit. */
  method NewStandalonePair(capacity: int) returns (server: Endpoint?, node: Endpoint?)
    ensures server == null <==> capacity < 0
    ensures server != null ==> node != null && fresh(server) && fresh(node) && server.Valid() && node.Valid()
    ensures server != null ==> server.output == node.input && server.input == node.output
    ensures server != null ==> server.maxSend == 262_144 && node.maxSend == 1_048_576
    ensures server != null ==> server.output.queue.capacity == server.input.queue.capacity == if capacity == 0 then 64 else capacity
  {
    if capacity < 0 { return null, null; }
    var size := if capacity == 0 then DEFAULT_QUEUE_CAPACITY else capacity;
    var serverToNode := new Direction(size);
    var nodeToServer := new Direction(size);
    server := new Endpoint(nodeToServer, serverToNode, CONTROL_FRAME_MAX_BYTES);
    node := new Endpoint(serverToNode, nodeToServer, EVENT_FRAME_MAX_BYTES);
  }

  // --- The interleaved system --------------------------------------------------------

  datatype Side = Server | Node

  /** One direction's queue, flags and history; `closes` counts closes of its channel. */
  datatype Dir = Dir(
    capacity: nat, limit: nat, queue: seq<Frame>, senderClosed: bool, receiverClosed: bool, closes: nat,
    accepted: seq<Frame>, delivered: seq<Frame>, panicked: bool)

  /** How far an endpoint's `Close` has come: `done` closed, then its sending side, then its receiving side. */
  datatype Closing = Open | DoneClosed | SenderClosed | AllClosed

  /** What finished receives returned; `None` stands for ErrClosed. */
  type Results = seq<Option<Frame>>

  datatype State = State(
    toNode: Dir, toServer: Dir, server: Closing, node: Closing, serverResults: Results, nodeResults: Results)

  /** `Send` is the queue operation of a send whose size was checked; `Receive` is the
      second select of a receive, which may pick a closed `done` over a ready queue. */
  datatype Event =
    | Send(side: Side, frame: Frame)
    | Receive(side: Side, pickDone: bool)
    | CloseStep(side: Side)

  function Init(capacity: nat): State {
    var dir := Dir(capacity, CONTROL_FRAME_MAX_BYTES, [], false, false, 0, [], [], false);
    State(dir, dir.(limit := EVENT_FRAME_MAX_BYTES), Open, Open, [], [])
  }

  function Out(s: State, side: Side): Dir { if side == Server then s.toNode else s.toServer }
  function In(s: State, side: Side): Dir { if side == Server then s.toServer else s.toNode }
  function WithOut(s: State, side: Side, d: Dir): State { if side == Server then s.(toNode := d) else s.(toServer := d) }
  function WithIn(s: State, side: Side, d: Dir): State { if side == Server then s.(toServer := d) else s.(toNode := d) }
  function ClosingOf(s: State, side: Side): Closing { if side == Server then s.server else s.node }
  function WithClosing(s: State, side: Side, c: Closing): State { if side == Server then s.(server := c) else s.(node := c) }
  function ResultsOf(s: State, side: Side): Results { if side == Server then s.serverResults else s.nodeResults }

  function Log(s: State, side: Side, result: Option<Frame>): State {
    if side == Server then s.(serverResults := s.serverResults + [result]) else s.(nodeResults := s.nodeResults + [result])
  }

  function Enqueue(d: Dir, frame: Frame): Dir {
    if |frame.data| > d.limit || d.senderClosed || d.receiverClosed then d
    else if d.closes > 0 then d.(panicked := true)
    else if |d.queue| < d.capacity then d.(queue := d.queue + [frame], accepted := d.accepted + [frame])
    else d
  }

  function Dequeue(d: Dir): Dir
    requires d.queue != []
  {
    d.(queue := d.queue[1..], delivered := d.delivered + [d.queue[0]])
  }

  function CloseQueue(d: Dir): Dir {
    if d.senderClosed then d else d.(senderClosed := true, closes := d.closes + 1, panicked := d.panicked || d.closes > 0)
  }

  function Step(s: State, e: Event): State {
    match e
    case Send(side, frame) => WithOut(s, side, Enqueue(Out(s, side), frame))
    case Receive(side, pickDone) =>
      var d := In(s, side);
      if !ClosingOf(s, side).Open? && (pickDone || d.queue == []) then Log(s, side, None)
      else if d.queue != [] then Log(WithIn(s, side, Dequeue(d)), side, Some(d.queue[0]))
      else if d.closes > 0 then Log(s, side, None)
      else s
    case CloseStep(side) =>
      match ClosingOf(s, side)
      case Open => WithClosing(s, side, DoneClosed)
      case DoneClosed => WithClosing(WithOut(s, side, CloseQueue(Out(s, side))), side, SenderClosed)
      case SenderClosed => WithClosing(WithIn(s, side, In(s, side).(receiverClosed := true)), side, AllClosed)
      case AllClosed => s
  }

  function Run(s: State, es: seq<Event>): State
    decreases |es|
  {
    if es == [] then s else Run(Step(s, es[0]), es[1..])
  }

  // --- What every step keeps -------------------------------------------------------------

  ghost predicate DirOk(d: Dir) {
    && d.accepted == d.delivered + d.queue
    && |d.queue| <= d.capacity
    && d.closes == (if d.senderClosed then 1 else 0) && !d.panicked
    && (forall i :: 0 <= i < |d.accepted| ==> |d.accepted[i].data| <= d.limit)
  }

  lemma DirKeeps(d: Dir, frame: Frame)
    requires DirOk(d)
    ensures DirOk(Enqueue(d, frame)) && DirOk(CloseQueue(d)) && (d.queue != [] ==> DirOk(Dequeue(d)))
  {
    if d.queue != [] {
      assert d.queue == [d.queue[0]] + d.queue[1..];
    }
  }

  ghost predicate Inv(s: State) {
    DirOk(s.toNode) && DirOk(s.toServer)
  }

  lemma StepKeepsInv(s: State, e: Event)
    requires Inv(s)
    ensures Inv(Step(s, e))
  {
    var frame := if e.Send? then e.frame else Frame([]);
    DirKeeps(s.toNode, frame);
    DirKeeps(s.toServer, frame);
  }

  lemma {:induction false} RunKeepsInv(s: State, es: seq<Event>)
    requires Inv(s)
    ensures Inv(Run(s, es))
    decreases |es|
  {
    if es != [] {
      StepKeepsInv(s, es[0]);
      RunKeepsInv(Step(s, es[0]), es[1..]);
    }
  }

  // --- Main results ------------------------------------------------------------------------

  /** In every run and both directions: accepted is delivered followed by queued, the
      queue stays within capacity, accepted frames respect the direction's limit, and no
      channel is closed twice or sent on after its close. */
  lemma FramesAreConserved(capacity: nat, es: seq<Event>, side: Side)
    ensures var d := Out(Run(Init(capacity), es), side);
      && d.accepted == d.delivered + d.queue && |d.queue| <= d.capacity
      && (forall i :: 0 <= i < |d.accepted| ==> |d.accepted[i].data| <= d.limit)
      && d.closes <= 1 && !d.panicked
  {
    RunKeepsInv(Init(capacity), es);
  }

  /** Capacity and limits are the configured ones throughout. */
  lemma {:induction false} LimitsAreFixed(s: State, es: seq<Event>, side: Side)
    ensures Out(Run(s, es), side).capacity == Out(s, side).capacity && Out(Run(s, es), side).limit == Out(s, side).limit
    decreases |es|
  {
    if es != [] { LimitsAreFixed(Step(s, es[0]), es[1..], side); }
  }

  /** The next `n` results of a receiver in front of a closed queue `q`. */
  function Drain(q: seq<Frame>, n: nat): Results
    decreases n
  {
    if n == 0 then [] else if q == [] then [None] + Drain([], n - 1) else [Some(q[0])] + Drain(q[1..], n - 1)
  }

  function Receives(es: seq<Event>, side: Side): nat
    decreases |es|
  {
    if es == [] then 0 else (if es[0].Receive? && es[0].side == side then 1 else 0) + Receives(es[1..], side)
  }

  /** One step in front of a closed queue: only the receiver's own receive touches it. */
  lemma DrainStep(s: State, e: Event, side: Side)
    requires Inv(s) && In(s, side).senderClosed && ClosingOf(s, side).Open? && e != CloseStep(side)
    ensures var t := Step(s, e);
      var q := In(s, side).queue;
      && In(t, side).senderClosed && ClosingOf(t, side).Open? && In(t, side).accepted == In(s, side).accepted
      && if e.Receive? && e.side == side then
           && In(t, side).queue == (if q == [] then [] else q[1..])
           && ResultsOf(t, side) == ResultsOf(s, side) + [if q == [] then None else Some(q[0])]
         else In(t, side).queue == q && ResultsOf(t, side) == ResultsOf(s, side)
  {
  }

  lemma DrainOne(results: Results, q: seq<Frame>, n: nat)
    ensures results + [if q == [] then None else Some(q[0])] + Drain(if q == [] then [] else q[1..], n) == results + Drain(q, n + 1)
  {
  }

  lemma {:induction false} DrainRun(s: State, es: seq<Event>, side: Side)
    requires Inv(s) && In(s, side).senderClosed && ClosingOf(s, side).Open?
    requires CloseStep(side) !in es
    ensures ResultsOf(Run(s, es), side) == ResultsOf(s, side) + Drain(In(s, side).queue, Receives(es, side))
    ensures In(Run(s, es), side).accepted == In(s, side).accepted
    ensures Receives(es, side) >= |In(s, side).queue| ==> In(Run(s, es), side).queue == []
    decreases |es|
  {
    if es != [] {
      var rest := es[1..];
      StepKeepsInv(s, es[0]);
      DrainStep(s, es[0], side);
      DrainRun(Step(s, es[0]), rest, side);
      DrainOne(ResultsOf(s, side), In(s, side).queue, Receives(rest, side));
    }
  }

  /** After the sender closed, a receiver that stays open receives the queued frames in
      order and from then on only ErrClosed, whatever else happens around it; after
      enough receives everything ever accepted has been delivered. */
  lemma OpenReceiverDrains(s: State, es: seq<Event>, side: Side)
    requires Inv(s) && In(s, side).senderClosed && ClosingOf(s, side).Open?
    requires CloseStep(side) !in es
    ensures ResultsOf(Run(s, es), side) == ResultsOf(s, side) + Drain(In(s, side).queue, Receives(es, side))
    ensures In(Run(s, es), side).accepted == In(s, side).accepted
    ensures Receives(es, side) >= |In(s, side).queue| ==> In(Run(s, es), side).delivered == In(s, side).accepted
  {
    DrainRun(s, es, side);
    RunKeepsInv(s, es);
  }

  /** What `Drain` says: the frames in order, then nothing but ErrClosed. */
  lemma {:induction false} DrainShape(q: seq<Frame>, n: nat, i: nat)
    requires i < n
    ensures |Drain(q, n)| == n
    ensures Drain(q, n)[i] == if i < |q| then Some(q[i]) else None
    decreases n
  {
    if q == [] {
      if i > 0 { DrainShape([], n - 1, i - 1); } else if n > 1 { DrainShape([], n - 1, 0); }
    } else {
      if i > 0 { DrainShape(q[1..], n - 1, i - 1); } else if n > 1 { DrainShape(q[1..], n - 1, 0); }
    }
  }

  // --- What each step comes to ----------------------------------------------------------------

  /** A frame is taken into its direction's queue exactly if it fits the side's limit, the
      sender and the receiver are open, and there is room; nothing else changes. */
  lemma SendComesTo(s: State, side: Side, frame: Frame)
    requires Inv(s)
    ensures var t, d, e := Step(s, Send(side, frame)), Out(s, side), Out(Step(s, Send(side, frame)), side);
      && In(t, side) == In(s, side) && t.server == s.server && t.node == s.node && ResultsOf(t, Server) == ResultsOf(s, Server) && ResultsOf(t, Node) == ResultsOf(s, Node)
      && if |frame.data| <= d.limit && !d.senderClosed && !d.receiverClosed && |d.queue| < d.capacity
         then e == d.(queue := d.queue + [frame], accepted := d.accepted + [frame]) else e == d
  {
  }

  /** A receive on an open endpoint, or one that still prefers its queue, returns the oldest
      queued frame; ErrClosed comes from an empty queue whose sender closed, or from a closed
      endpoint; otherwise the receive goes on waiting. */
  lemma ReceiveComesTo(s: State, side: Side, pickDone: bool)
    requires Inv(s)
    ensures var t, d, e := Step(s, Receive(side, pickDone)), In(s, side), In(Step(s, Receive(side, pickDone)), side);
      && Out(t, side) == Out(s, side) && t.server == s.server && t.node == s.node
      && if d.queue != [] && (ClosingOf(s, side) == Open || !pickDone)
         then ResultsOf(t, side) == ResultsOf(s, side) + [Some(d.queue[0])] && e == d.(queue := d.queue[1..], delivered := d.delivered + [d.queue[0]])
         else e == d && ResultsOf(t, side) == ResultsOf(s, side) + if d.senderClosed || ClosingOf(s, side) != Open then [None] else []
  {
  }

  /** The three steps of Close: `done`, the sending side, the receiving side; more change nothing. */
  lemma CloseComesTo(s: State, side: Side)
    requires Inv(s) && ClosingOf(s, side) == Open
    ensures var t := Step(Step(Step(s, CloseStep(side)), CloseStep(side)), CloseStep(side));
      && ClosingOf(t, side) == AllClosed && Out(t, side).senderClosed && In(t, side).receiverClosed
      && Out(t, side).queue == Out(s, side).queue && In(t, side).queue == In(s, side).queue && In(t, side).senderClosed == In(s, side).senderClosed
      && Step(t, CloseStep(side)) == t
  {
  }
}
