/**
 * The predictive interposer as a step system: one step for each lock region, each channel operation and
 * each unlocked read or write, with any number of writers and epoch callbacks, the upstream puller and
 * one reader. Emulator, predictor and display are functions given from outside.
 */
module InterposerProtocol {
  import opened Basics

  /** The Mosh classes, over emulators E, framebuffers S and prediction engines P. */
  datatype Mosh<!E, !S, !P> = Mosh(
    emulator: E,                                  // terminal.MakeComplete
    blank: S,                                     // terminal.MakeFramebuffer
    engine: P,                                    // overlay.MakePredictionEngine
    perform: (E, seq<byte>) -> E,                 // Complete.Perform
    act: (E, byte) -> E,                          // Complete.Act of a user byte: the emulator after it
    reply: (E, byte) -> seq<byte>,                // Complete.Act of a user byte: what goes to the host
    screen: E -> S,                               // Complete.GetFramebuffer
    newUserByte: (P, byte, S) -> P,
    frameSent: (P, nat) -> P,
    frameAcked: (P, nat) -> P,
    frameLateAcked: (P, nat) -> P,
    sendInterval: (P, int) -> P,
    cull: (P, S) -> P,
    overlay: (P, S) -> S,                         // PredictionEngine.Apply
    open: seq<byte>,                              // Display.Open
    newFrame: (bool, S, S) -> seq<byte>)          // Display.NewFrame

  /** A call of Write; from Notifying to Finishing it holds emulatorMutex. */
  datatype Writer =
    | Outside
    | Notifying(began: int, host: seq<byte>)  // about to try predictionNotification
    | Flagging(began: int, host: seq<byte>)   // put rejected, about to set droppedUpdate
    | Finishing(began: int, host: seq<byte>)  // about to open the epoch and unlock
    | Submitting(host: seq<byte>, epoch: nat) // about to hand over to the sink and start the callback

  /** An epoch and its callback. */
  datatype Epoch =
    | Unsent(openedAt: int)
    | Waiting(openedAt: int)    // the callback runs
    | Announcing(openedAt: int) // CloseEpoch is past its lock region, about to try upstreamErr
    | Marking(openedAt: int)    // put rejected, about to set droppedUpdate
    | Finished(openedAt: int)
  {
    predicate Closed() {
      Announcing? || Marking? || Finished?
    }
  }

  /** The bytes for the host that one call of Write handed to the sink. */
  datatype Submission = Submission(writer: nat, host: seq<byte>)

  datatype Puller<S> =
    | Pulling                          // in upstream.Read
    | Got(chunk: seq<byte>)
    | Checking                         // about to read pendingEpoch
    | Loading                          // about to read pendingRemoteState
    | Storing(screen: S)               // about to write completeRemoteState
    | Putting                          // about to try upstreamErr
    | Dropping                         // put rejected, about to set droppedUpdate

  datatype Reader =
    | Away
    | Sleeping(size: nat, began: int, until: int)
    | AtGate(size: nat, began: int)                          // about to read droppedUpdate
    | Selecting(size: nat, began: int)                       // saw false, about to enter the select
    | Parked(size: nat, began: int)                          // in the select
    | Clearing(size: nat, began: int, prediction: bool)      // about to clear droppedUpdate
    | Copying(size: nat, began: int, prediction: bool)       // about to lock and make the frame
    | Delivering(size: nat, began: int, prediction: bool, emission: seq<byte>)

  datatype Event = Performed(chunk: seq<byte>) | Acted(b: byte)

  /** A call into the prediction engine. */
  datatype Call<S> =
    | UserByte(b: byte, local: S)
    | Sent(e: nat)
    | Acked(e: nat)
    | LateAcked(e: nat)
    | Interval(latency: int)
    | Culled(screen: S)

  /** The framebuffer recorded after a chunk from upstream, after how many events, and the newest epoch it reflects. */
  datatype Snapshot<S> = Snapshot(screen: S, at: nat, reach: nat)

  /**
   * A frame: when its Read began and when it was made, the framebuffer given to Cull and the snapshot it
   * is, how the epochs stood then, and what was shown.
   */
  datatype Frame<S> = Frame(began: int, at: int, prediction: bool,
                            given: S, index: nat, acked: nat, closed: set<nat>, shown: S)

  /** The emulator, the two remote framebuffers, and what was recorded of them. */
  datatype Screens<E, S> = Screens(
    emulator: E,
    pending: S,                  // pendingRemoteState
    complete: S,                 // completeRemoteState
    events: seq<Event>,
    snapshots: seq<Snapshot<S>>,
    completeIndex: nat,          // the snapshot completeRemoteState is
    arriving: nat)               // the newest epoch reflected once the chunk in the puller's hands is performed

  /** The client's side of the screen. */
  datatype Display<S> = Display(
    localState: S,
    initialized: bool,
    isOpen: bool,                // the field opened
    pending: Option<seq<byte>>,
    output: seq<byte>)           // all bytes Read gave to the client

  /** The epochs, and the prediction engine that is told of them. */
  datatype Books<S, P> = Books(
    predictor: P,
    epoch: nat,
    pendingEpoch: bool,
    pendingStarted: Option<int>, // pendingEpochStarted, None for the zero time
    epochs: map<nat, Epoch>,
    lastSent: nat,               // the last epoch given to LocalFrameSent
    lastAcked: nat,              // the last epoch given to LocalFrameAcked
    calls: seq<Call<S>>)         // all calls into the prediction engine

  datatype Updates = Updates(
    dropped: bool,               // droppedUpdate
    reader: Reader)

  datatype Clock<S> = Clock(
    now: int,
    interval: int,               // coalesceInterval
    lastUpdated: Option<int>,    // None for the zero time
    frames: seq<Frame<S>>)       // all frames made so far

  datatype State<E, S, P> = State(
    screens: Screens<E, S>,
    display: Display<S>,
    books: Books<S, P>,
    updates: Updates,
    clock: Clock<S>,
    mutex: Option<nat>,          // the writer that holds emulatorMutex between steps
    writers: map<nat, Writer>,
    puller: Puller<S>,
    submitted: seq<Submission>)  // what Write handed to the sink

  datatype Step =
    | Write(w: nat, p: seq<byte>)
    | WriteNotify(w: nat)
    | WriteFlag(w: nat)
    | WriteFinish(w: nat)
    | WriteSubmit(w: nat)
    | Close(e: nat)
    | CloseNotify(e: nat)
    | CloseFlag(e: nat)
    | Pull(chunk: seq<byte>, reach: nat)
    | Perform
    | Check
    | Load
    | Store
    | PullNotify
    | PullFlag
    | Read(size: nat)
    | WakeUp
    | Gate
    | Park
    | Clear
    | MakeFrame
    | Deliver
    | Tick(d: nat)

  function Init<E, S, P>(m: Mosh<E, S, P>, interval: int, ids: set<nat>, now: int): State<E, S, P> {
    State(Screens(m.emulator, m.blank, m.blank, [], [Snapshot(m.blank, 0, 0)], 0, 0),
          Display(m.blank, false, false, None, []),
          Books(m.engine, 0, false, None, map[], 0, 0, []),
          Updates(false, Away),
          Clock(now, interval, None, []),
          None, map w | w in ids :: Outside, Pulling, [])
  }

  predicate Enabled<E, S, P>(s: State<E, S, P>, step: Step) {
    var epochs, snapshots, reader := s.books.epochs, s.screens.snapshots, s.updates.reader;
    match step
    case Write(w, _) => w in s.writers && s.writers[w].Outside? && s.mutex == None
    case WriteNotify(w) => w in s.writers && s.writers[w].Notifying?
    case WriteFlag(w) => w in s.writers && s.writers[w].Flagging?
    case WriteFinish(w) => w in s.writers && s.writers[w].Finishing?
    case WriteSubmit(w) =>
      && w in s.writers && s.writers[w].Submitting?
      && s.writers[w].epoch in epochs && epochs[s.writers[w].epoch].Unsent?
    case Close(e) => e in epochs && epochs[e].Waiting? && s.mutex == None && snapshots != []
    case CloseNotify(e) => e in epochs && epochs[e].Announcing?
    case CloseFlag(e) => e in epochs && epochs[e].Marking?
    case Pull(_, reach) => s.puller.Pulling? && snapshots != [] && snapshots[|snapshots| - 1].reach <= reach
    case Perform => s.puller.Got? && s.mutex == None
    case Check => s.puller.Checking?
    case Load => s.puller.Loading?
    case Store => s.puller.Storing? && snapshots != []
    case PullNotify => s.puller.Putting?
    case PullFlag => s.puller.Dropping?
    case Read(_) => reader.Away?
    case WakeUp => reader.Sleeping? && s.clock.now >= reader.until
    case Gate => reader.AtGate?
    case Park => reader.Selecting?
    case Clear => reader.Clearing?
    case MakeFrame => reader.Copying? && s.mutex == None
    case Deliver => reader.Delivering?
    case Tick(_) => true
  }

  function Do<E, S, P>(m: Mosh<E, S, P>, s: State<E, S, P>, step: Step): State<E, S, P>
    requires Enabled(s, step)
  {
    match step
    case Write(w, p) => BeginWrite(m, s, w, p)
    case WriteNotify(w) =>
      var Notifying(began, host) := s.writers[w];
      s.(updates := Notify(s.updates, true),
         writers := s.writers[w := if s.updates.reader.Parked? then Finishing(began, host) else Flagging(began, host)])
    case WriteFlag(w) =>
      s.(updates := s.updates.(dropped := true),
         writers := s.writers[w := Finishing(s.writers[w].began, s.writers[w].host)])
    case WriteFinish(w) => FinishWrite(m, s, w)
    case WriteSubmit(w) =>
      var Submitting(host, e) := s.writers[w];
      s.(submitted := s.submitted + [Submission(w, host)], writers := s.writers[w := Outside],
         books := s.books.(epochs := s.books.epochs[e := Waiting(s.books.epochs[e].openedAt)]))
    case Close(e) => CloseEpoch(m, s, e)
    case CloseNotify(e) =>
      var at := s.books.epochs[e].openedAt;
      s.(updates := Notify(s.updates, false),
         books := s.books.(epochs := s.books.epochs[e := if s.updates.reader.Parked? then Finished(at)
                                                         else Marking(at)]))
    case CloseFlag(e) =>
      s.(updates := s.updates.(dropped := true),
         books := s.books.(epochs := s.books.epochs[e := Finished(s.books.epochs[e].openedAt)]))
    case Pull(chunk, reach) =>
      if chunk == [] then s.(puller := Putting)
      else s.(puller := Got(chunk), screens := s.screens.(arriving := reach))
    case Perform => s.(screens := Performing(m, s.screens, s.puller.chunk), puller := Checking)
    case Check => s.(puller := if s.books.pendingEpoch then Putting else Loading)
    case Load => s.(puller := Storing(s.screens.pending))
    case Store =>
      s.(screens := s.screens.(complete := s.puller.screen, completeIndex := |s.screens.snapshots| - 1),
         puller := Putting)
    case PullNotify =>
      s.(updates := Notify(s.updates, false), puller := if s.updates.reader.Parked? then Pulling else Dropping)
    case PullFlag => s.(updates := s.updates.(dropped := true), puller := Pulling)
    case Read(size) => BeginRead(m, s, size)
    case WakeUp => At(s, AtGate(s.updates.reader.size, s.updates.reader.began))
    case Gate =>
      var AtGate(size, began) := s.updates.reader;
      At(s, if s.updates.dropped then Clearing(size, began, false) else Selecting(size, began))
    case Park => At(s, Parked(s.updates.reader.size, s.updates.reader.began))
    case Clear =>
      var Clearing(size, began, prediction) := s.updates.reader;
      s.(updates := s.updates.(dropped := false, reader := Copying(size, began, prediction)))
    case MakeFrame => NewFrame(m, s)
    case Deliver => DeliverFrame(s)
    case Tick(d) => s.(clock := s.clock.(now := s.clock.now + d))
  }

  /** A non-blocking put: it succeeds exactly when the reader is in its select. */
  function Notify(u: Updates, prediction: bool): Updates {
    if u.reader.Parked? then u.(reader := Clearing(u.reader.size, u.reader.began, prediction)) else u
  }

  function At<E, S, P>(s: State<E, S, P>, reader: Reader): State<E, S, P> {
    s.(updates := s.updates.(reader := reader))
  }

  // ----- Write -----

  /** The byte loop of Write. */
  datatype Typed<E, P> = Typed(emulator: E, predictor: P, host: seq<byte>)

  function Type<E, S, P>(m: Mosh<E, S, P>, emulator: E, predictor: P, local: S, p: seq<byte>): Typed<E, P> {
    if p == [] then Typed(emulator, predictor, [])
    else
      var t := Type(m, emulator, predictor, local, p[..|p| - 1]);
      var b := p[|p| - 1];
      Typed(m.act(t.emulator, b), m.newUserByte(t.predictor, b, local), t.host + m.reply(t.emulator, b))
  }

  const REPAINT: byte := 0x0c

  function Acts(p: seq<byte>): seq<Event> {
    seq(|p|, i requires 0 <= i < |p| => Acted(p[i]))
  }

  /** The prediction engine after the head of Write has told it how long the oldest epoch has been open. */
  function Told<E, S, P>(m: Mosh<E, S, P>, books: Books<S, P>, now: int): P {
    match books.pendingStarted
    case None => books.predictor
    case Some(started) => m.sendInterval(books.predictor, now - started)
  }

  /** The call the head of Write makes into the prediction engine. */
  function Telling<S, P>(books: Books<S, P>, now: int): seq<Call<S>> {
    match books.pendingStarted
    case None => []
    case Some(started) => [Interval(now - started)]
  }

  function Keys<S>(p: seq<byte>, local: S): seq<Call<S>> {
    seq(|p|, i requires 0 <= i < |p| => UserByte(p[i], local))
  }

  function BeginWrite<E, S, P>(m: Mosh<E, S, P>, s: State<E, S, P>, w: nat, p: seq<byte>): State<E, S, P> {
    var now := s.clock.now;
    var typed := Type(m, s.screens.emulator, Told(m, s.books, now), s.display.localState, p);
    s.(screens := s.screens.(emulator := typed.emulator, events := s.screens.events + Acts(p)),
       display := s.display.(initialized := s.display.initialized && REPAINT !in p),
       books := s.books.(predictor := typed.predictor,
                         calls := s.books.calls + Telling(s.books, now) + Keys(p, s.display.localState),
                         pendingStarted := if s.books.pendingStarted == None then Some(now)
                                           else s.books.pendingStarted),
       mutex := Some(w),
       writers := s.writers[w := if p == [] then Finishing(now, typed.host) else Notifying(now, typed.host)])
  }

  function FinishWrite<E, S, P>(m: Mosh<E, S, P>, s: State<E, S, P>, w: nat): State<E, S, P>
    requires Enabled(s, WriteFinish(w))
  {
    var Finishing(began, host) := s.writers[w];
    var e := s.books.epoch + 1;
    s.(books := s.books.(epoch := e, pendingEpoch := true, predictor := m.frameSent(s.books.predictor, e),
                         lastSent := e, calls := s.books.calls + [Sent(e)],
                         epochs := s.books.epochs[e := Unsent(began)]),
       mutex := None, writers := s.writers[w := Submitting(host, e)])
  }

  // ----- CloseEpoch and the puller -----

  function CloseEpoch<E, S, P>(m: Mosh<E, S, P>, s: State<E, S, P>, e: nat): State<E, S, P>
    requires Enabled(s, Close(e))
  {
    s.(books := ClosedBooks(m, s.books, e, s.clock.now),
       screens := s.screens.(complete := s.screens.pending, completeIndex := |s.screens.snapshots| - 1))
  }

  /** The books after an acknowledgement; an epoch is pending if a newer one was opened. */
  function ClosedBooks<E, S, P>(m: Mosh<E, S, P>, b: Books<S, P>, e: nat, now: int): Books<S, P>
    requires e in b.epochs
  {
    var openedAt := b.epochs[e].openedAt;
    var pending := b.epoch > e;
    var acked := m.frameLateAcked(m.frameAcked(b.predictor, e), e);
    b.(predictor := m.sendInterval(acked, now - openedAt),
       lastAcked := e,
       calls := b.calls + [Acked(e), LateAcked(e), Interval(now - openedAt)],
       pendingEpoch := pending,
       pendingStarted := if pending then b.pendingStarted else None,
       epochs := b.epochs[e := Announcing(openedAt)])
  }

  function Performing<E, S, P>(m: Mosh<E, S, P>, c: Screens<E, S>, chunk: seq<byte>): Screens<E, S> {
    var emulator := m.perform(c.emulator, chunk);
    var screen := m.screen(emulator);
    c.(emulator := emulator, pending := screen, events := c.events + [Performed(chunk)],
       snapshots := c.snapshots + [Snapshot(screen, |c.events| + 1, c.arriving)])
  }

  // ----- Read -----

  /** `copy(p, bytes)` into a buffer of `size`; the part that does not fit goes to `pending`. */
  function Give<S>(d: Display<S>, size: nat, bytes: seq<byte>): Display<S> {
    var n := Min(size, |bytes|);
    d.(output := d.output + bytes[..n],
       pending := if n < |bytes| then Some((if d.pending.Some? then d.pending.value else []) + bytes[n..])
                  else d.pending)
  }

  /** Reading from the bytes.Buffer `pending`. */
  function Drain<S>(d: Display<S>, size: nat): Display<S>
    requires d.pending.Some?
  {
    var bytes := d.pending.value;
    if bytes == [] && size > 0 then d.(pending := None)
    else
      var n := Min(size, |bytes|);
      d.(output := d.output + bytes[..n], pending := Some(bytes[n..]))
  }

  function BeginRead<E, S, P>(m: Mosh<E, S, P>, s: State<E, S, P>, size: nat): State<E, S, P> {
    if s.display.pending.Some? then s.(display := Drain(s.display, size))
    else if !s.display.isOpen then s.(display := Give(s.display.(isOpen := true), size, m.open))
    else At(s, Coalesce(s.clock, size))
  }

  function Coalesce<S>(c: Clock<S>, size: nat): Reader {
    match c.lastUpdated
    case Some(last) =>
      if c.now - last < c.interval then Sleeping(size, c.now, last + c.interval) else AtGate(size, c.now)
    case None => AtGate(size, c.now)
  }

  function ClosedEpochs(epochs: map<nat, Epoch>): set<nat> {
    set e | e in epochs && epochs[e].Closed()
  }

  function NewFrame<E, S, P>(m: Mosh<E, S, P>, s: State<E, S, P>): State<E, S, P>
    requires Enabled(s, MakeFrame)
  {
    var Copying(size, began, prediction) := s.updates.reader;
    var predictor := m.cull(s.books.predictor, s.screens.complete);
    var shown := m.overlay(predictor, s.screens.complete);
    var emission := m.newFrame(s.display.initialized, s.display.localState, shown);
    var frame := Frame(began, s.clock.now, prediction, s.screens.complete, s.screens.completeIndex,
                       s.books.lastAcked, ClosedEpochs(s.books.epochs), shown);
    s.(books := s.books.(predictor := predictor, calls := s.books.calls + [Culled(s.screens.complete)]),
       display := s.display.(localState := shown, initialized := true),
       updates := s.updates.(reader := Delivering(size, began, prediction, emission)),
       clock := s.clock.(frames := s.clock.frames + [frame]))
  }

  function DeliverFrame<E, S, P>(s: State<E, S, P>): State<E, S, P>
    requires Enabled(s, Deliver)
  {
    var Delivering(size, began, prediction, emission) := s.updates.reader;
    s.(display := Give(s.display, size, emission),
       clock := s.clock.(lastUpdated := if prediction then s.clock.lastUpdated else Some(began)),
       updates := s.updates.(reader := Away))
  }

  predicate Run<E, S, P>(m: Mosh<E, S, P>, s: State<E, S, P>, steps: seq<Step>)
    decreases steps
  {
    steps == [] || (Enabled(s, steps[0]) && Run(m, Do(m, s, steps[0]), steps[1..]))
  }

  function After<E, S, P>(m: Mosh<E, S, P>, s: State<E, S, P>, steps: seq<Step>): State<E, S, P>
    requires Run(m, s, steps)
    decreases steps
  {
    if steps == [] then s else After(m, Do(m, s, steps[0]), steps[1..])
  }

  lemma {:induction false} Extend<E, S, P>(m: Mosh<E, S, P>, s: State<E, S, P>, steps: seq<Step>, step: Step)
    requires Run(m, s, steps) && Enabled(After(m, s, steps), step)
    ensures Run(m, s, steps + [step]) && After(m, s, steps + [step]) == Do(m, After(m, s, steps), step)
    decreases steps
  {
    if steps == [] {
      assert Run(m, Do(m, s, step), []) && [step][1..] == [];
    } else {
      Extend(m, Do(m, s, steps[0]), steps[1..], step);
      assert (steps + [step])[1..] == steps[1..] + [step];
    }
  }

  /** `steps` is a run from s, and leads to t. */
  ghost predicate Reaches<E, S, P>(m: Mosh<E, S, P>, s: State<E, S, P>, steps: seq<Step>, t: State<E, S, P>) {
    Run(m, s, steps) && After(m, s, steps) == t
  }

  lemma Advance<E, S, P>(m: Mosh<E, S, P>, s: State<E, S, P>, steps: seq<Step>, t: State<E, S, P>, step: Step)
    returns (longer: seq<Step>, u: State<E, S, P>)
    requires Reaches(m, s, steps, t) && Enabled(t, step)
    ensures Reaches(m, s, longer, u) && u == Do(m, t, step)
  {
    Extend(m, s, steps, step);
    longer, u := steps + [step], Do(m, t, step);
  }
}
