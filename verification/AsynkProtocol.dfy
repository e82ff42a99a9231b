/**
 * The asynchronous sink writer as a step system: one step for each lock region, each channel
 * operation and each unlocked read or write, with any number of writers.
 */
module AsynkProtocol {
  import opened Basics

  /** What the last call of a writer gave back. */
  datatype Outcome =
    | NoCall
    | Returned(count: nat, arg: seq<byte>)  // count, nil
    | Refused                               // 0, upstreamErr

  /**
   * Where a writer stands. `arg` is the argument of its outermost call; the recursive call it is in
   * has the argument `arg[done..]`.
   */
  datatype Writer =
    | Outside(result: Outcome)
    | Checking(arg: seq<byte>, done: nat)           // about to read upstreamErr
    | Copying(arg: seq<byte>, done: nat)            // about to take the lock
    | Notifying(arg: seq<byte>, done: nat, n: nat)  // n bytes copied, about to try the channel
    | Parking(arg: seq<byte>, done: nat)            // put rejected, bytes left, not yet in Wait
    | Sleeping(arg: seq<byte>, done: nat)           // in Wait

  datatype Consumer =
    | Idle                          // at the channel
    | Woken                         // took a token
    | Sending(next: nat, pos: nat)  // inside the upstream write, `pos` is the next byte it reads
    | Sent(next: nat)               // the upstream write returned nil
    | Failed(pos: nat)              // the upstream write returned an error: the goroutine is gone

  /** The bytes one lock region copied into the buffer. */
  datatype Piece = Piece(writer: nat, bytes: seq<byte>)

  datatype State = State(
    buffer: seq<byte>,
    index: nat,              // bufferIndex
    last: nat,               // lastTransmittedIndex
    token: bool,             // the one-slot writeNotify channel
    failed: bool,            // upstreamErr != nil
    consumer: Consumer,
    writers: map<nat, Writer>,
    // history
    calls: map<nat, seq<seq<byte>>>,  // the arguments of each writer's outermost calls
    accepted: seq<Piece>,
    delivered: seq<byte>,             // bytes the upstream write has read
    snapshot: seq<byte>)              // the slice of the latest upstream write, as it was when handed over

  datatype Step =
    | Call(w: nat, p: seq<byte>)
    | Check(w: nat)
    | Copy(w: nat)
    | Notify(w: nat)
    | Park(w: nat)
    | Take
    | Snapshot
    | SendByte
    | SendReturns
    | SendFails
    | Finish(wake: Option<nat>)

  function Init(capacity: nat, ids: set<nat>): State {
    State(seq(capacity, _ => 0), 0, 0, false, false, Idle, map w | w in ids :: Outside(NoCall),
          map w | w in ids :: [], [], [], [])
  }

  /** cond.Signal: one sleeper is woken if there is one. */
  predicate Signals(writers: map<nat, Writer>, wake: Option<nat>) {
    match wake
    case None => forall w | w in writers :: !writers[w].Sleeping?
    case Some(w) => w in writers && writers[w].Sleeping?
  }

  predicate Enabled(s: State, step: Step) {
    match step
    case Call(w, p) => w in s.writers && w in s.calls && s.writers[w].Outside?
    case Check(w) => w in s.writers && s.writers[w].Checking?
    case Copy(w) =>
      w in s.writers && s.writers[w].Copying? && s.writers[w].done <= |s.writers[w].arg| && s.index <= |s.buffer|
    case Notify(w) => w in s.writers && s.writers[w].Notifying?
    case Park(w) => w in s.writers && s.writers[w].Parking?
    case Take => s.consumer.Idle? && s.token
    case Snapshot => s.consumer.Woken? && s.last <= s.index <= |s.buffer|
    case SendByte => s.consumer.Sending? && s.consumer.pos < s.consumer.next <= |s.buffer|
    case SendReturns => s.consumer.Sending? && s.consumer.pos == s.consumer.next
    case SendFails => s.consumer.Sending?
    case Finish(wake) => s.consumer.Sent? && Signals(s.writers, wake)
  }

  function Do(s: State, step: Step): State
    requires Enabled(s, step)
  {
    match step
    case Call(w, p) =>
      s.(writers := s.writers[w := Checking(p, 0)], calls := s.calls[w := s.calls[w] + [p]])
    case Check(w) =>
      var Checking(arg, done) := s.writers[w];
      s.(writers := s.writers[w := if s.failed then Outside(Refused) else Copying(arg, done)])
    case Copy(w) =>
      var Copying(arg, done) := s.writers[w];
      var n := Min(|s.buffer| - s.index, |arg| - done);
      var piece := arg[done..done + n];
      s.(buffer := s.buffer[..s.index] + piece + s.buffer[s.index + n..],
         index := s.index + n,
         writers := s.writers[w := Notifying(arg, done, n)],
         accepted := s.accepted + [Piece(w, piece)])
    case Notify(w) =>
      var Notifying(arg, done, n) := s.writers[w];
      s.(token := true,
         writers := s.writers[w := if |arg| <= done + n then Outside(Returned(n, arg))
                                   else if !s.token then Checking(arg, done + n)
                                   else Parking(arg, done + n)])
    case Park(w) =>
      s.(writers := s.writers[w := Sleeping(s.writers[w].arg, s.writers[w].done)])
    case Take =>
      s.(token := false, consumer := Woken)
    case Snapshot =>
      s.(consumer := Sending(s.index, s.last), snapshot := s.buffer[s.last..s.index])
    case SendByte =>
      s.(consumer := Sending(s.consumer.next, s.consumer.pos + 1),
         delivered := s.delivered + [s.buffer[s.consumer.pos]])
    case SendReturns =>
      s.(consumer := Sent(s.consumer.next), last := s.consumer.next, failed := false)
    case SendFails =>
      s.(consumer := Failed(s.consumer.pos), last := s.consumer.next, failed := true)
    case Finish(wake) =>
      var drained := s.index == s.consumer.next;
      s.(index := if drained then 0 else s.index,
         last := if drained then 0 else s.last,
         consumer := Idle,
         writers := Wake(s.writers, wake))
  }

  /** A woken sleeper leaves Wait and starts the recursive call. */
  function Wake(writers: map<nat, Writer>, wake: Option<nat>): map<nat, Writer>
    requires Signals(writers, wake)
  {
    match wake
    case None => writers
    case Some(w) => writers[w := Checking(writers[w].arg, writers[w].done)]
  }

  /** `steps` can be taken one after another from `s`. */
  predicate Run(s: State, steps: seq<Step>)
    decreases steps
  {
    steps == [] || (Enabled(s, steps[0]) && Run(Do(s, steps[0]), steps[1..]))
  }

  function After(s: State, steps: seq<Step>): State
    requires Run(s, steps)
    decreases steps
  {
    if steps == [] then s else After(Do(s, steps[0]), steps[1..])
  }

  /** All accepted bytes, in the order the lock regions took them. */
  function Stream(log: seq<Piece>): seq<byte> {
    if log == [] then [] else Stream(log[..|log| - 1]) + log[|log| - 1].bytes
  }

  /** The accepted bytes of one writer. */
  function StreamOf(log: seq<Piece>, w: nat): seq<byte> {
    if log == [] then []
    else
      var last := log[|log| - 1];
      StreamOf(log[..|log| - 1], w) + if last.writer == w then last.bytes else []
  }

  /** The first byte the upstream has not read. */
  function Unread(s: State): nat {
    match s.consumer
    case Sending(_, pos) => pos
    case Failed(pos) => pos
    case _ => s.last
  }

  /** How much of the argument of a call in progress is in the buffer already. */
  function Taken(wr: Writer): nat
    requires !wr.Outside?
  {
    if wr.Notifying? then wr.done + wr.n else wr.done
  }
}
