/**
 * The ring delayer as a step system: one step for each lock region, each channel operation, each
 * clock reading and each byte of the private copy, with any number of writers.
 */
module RingProtocol {
  import opened Basics

  /**
   * What a call of Write put into the ring: whose it is, its call time, its release time and its copy of the argument.
   */
  datatype Chunk = Chunk(writer: nat, stamp: int, due: int, bytes: seq<byte>)

  datatype Departure = Departure(start: int, bytes: Option<seq<byte>>)

  datatype Writer =
    | Outside
    | Filling(stamp: int, bytes: seq<byte>)  // read the clock, copying the argument
    | Asleep(stamp: int, bytes: seq<byte>)   // in cond.Wait
    | Awake(stamp: int, bytes: seq<byte>)    // signalled, about to look at the tail slot again
    | Stored                                 // in the ring, about to send on notifyChan

  datatype Consumer =
    | Idle                                           // at the channel
    | Holding                                        // took a token
    | Dozing(buffer: Option<seq<byte>>, until: int)  // released the lock until the head is due
    | Popped(buffer: Option<seq<byte>>)              // emptied the head slot, about to write upstream
    | Sending                                        // inside the upstream write

  datatype State = State(
    delay: int,
    ring: seq<Option<seq<byte>>>,
    sendTime: seq<int>,
    head: nat,
    tail: nat,
    tokens: nat,         // filling of notifyChan, whose capacity is the ring size
    now: int,
    consumer: Consumer,
    writers: map<nat, Writer>,
    // history
    stored: seq<Chunk>,  // in slot order
    popped: nat,
    departed: seq<Departure>)

  datatype Step =
    | Enter(w: nat)
    | Fill(w: nat, b: byte)
    | Lock(w: nat)
    | Notify(w: nat)
    | Take
    | Peek(wake: Option<nat>)
    | Rouse(wake: Option<nat>)
    | Start
    | Done
    | Tick(d: nat)

  function Init(delay: int, size: nat, ids: set<nat>, now: int): State {
    State(delay, seq(size, _ => None), seq(size, _ => 0), 0, 0, 0, now, Idle, map w | w in ids :: Outside, [], 0, [])
  }

  predicate Signals(writers: map<nat, Writer>, wake: Option<nat>) {
    match wake
    case None => forall w | w in writers :: !writers[w].Asleep?
    case Some(w) => w in writers && writers[w].Asleep?
  }

  predicate Shaped(s: State) {
    0 < |s.ring| == |s.sendTime| && s.head < |s.ring| && s.tail < |s.ring|
  }

  predicate Enabled(s: State, step: Step) {
    match step
    case Enter(w) => w in s.writers && s.writers[w].Outside?
    case Fill(w, _) => w in s.writers && s.writers[w].Filling?
    case Lock(w) => w in s.writers && (s.writers[w].Filling? || s.writers[w].Awake?) && Shaped(s)
    case Notify(w) => w in s.writers && s.writers[w].Stored? && s.tokens < |s.ring|
    case Take => s.consumer.Idle? && s.tokens > 0
    case Peek(wake) =>
      && s.consumer.Holding? && Shaped(s)
      && if s.sendTime[s.head] > s.now then wake == None else Signals(s.writers, wake)
    case Rouse(wake) => s.consumer.Dozing? && s.now >= s.consumer.until && Shaped(s) && Signals(s.writers, wake)
    case Start => s.consumer.Popped?
    case Done => s.consumer.Sending?
    case Tick(_) => true
  }

  function Do(s: State, step: Step): State
    requires Enabled(s, step)
  {
    match step
    case Enter(w) => s.(writers := s.writers[w := Filling(s.now, [])])
    case Fill(w, b) =>
      s.(writers := s.writers[w := Filling(s.writers[w].stamp, s.writers[w].bytes + [b])])
    case Lock(w) => if s.ring[s.tail].Some? then Sleep(s, w) else Store(s, w)
    case Notify(w) => s.(tokens := s.tokens + 1, writers := s.writers[w := Outside])
    case Take => s.(tokens := s.tokens - 1, consumer := Holding)
    case Peek(wake) =>
      if s.sendTime[s.head] > s.now
      then s.(consumer := Dozing(s.ring[s.head], s.sendTime[s.head]))
      else Pop(s, s.ring[s.head], wake)
    case Rouse(wake) => Pop(s, s.consumer.buffer, wake)
    case Start => s.(consumer := Sending, departed := s.departed + [Departure(s.now, s.consumer.buffer)])
    case Done => s.(consumer := Idle)
    case Tick(d) => s.(now := s.now + d)
  }

  function Sleep(s: State, w: nat): State
    requires Enabled(s, Lock(w))
  {
    s.(writers := s.writers[w := Asleep(s.writers[w].stamp, s.writers[w].bytes)])
  }

  function Store(s: State, w: nat): State
    requires Enabled(s, Lock(w))
  {
    var stamp, bytes := s.writers[w].stamp, s.writers[w].bytes;
    s.(ring := s.ring[s.tail := Some(bytes)],
       sendTime := s.sendTime[s.tail := stamp + s.delay],
       tail := (s.tail + 1) % |s.ring|,
       writers := s.writers[w := Stored],
       stored := s.stored + [Chunk(w, stamp, stamp + s.delay, bytes)])
  }

  function Pop(s: State, buffer: Option<seq<byte>>, wake: Option<nat>): State
    requires Shaped(s) && Signals(s.writers, wake)
  {
    s.(ring := s.ring[s.head := None],
       head := (s.head + 1) % |s.ring|,
       consumer := Popped(buffer),
       writers := Wake(s.writers, wake),
       popped := s.popped + 1)
  }

  function Wake(writers: map<nat, Writer>, wake: Option<nat>): map<nat, Writer>
    requires Signals(writers, wake)
  {
    match wake
    case None => writers
    case Some(w) => writers[w := Awake(writers[w].stamp, writers[w].bytes)]
  }

  predicate Run(s: State, steps: seq<Step>)
    decreases steps
  {
    steps == [] || (Enabled(s, steps[0]) && Run(Do(s, steps[0]), steps[1..]))
  }

  function After(s: State, steps: seq<Step>): State
    requires Run(s, steps)
    decreases steps
  {
    if steps == [] then s else After(Do(s, steps[0]), steps[1..])
  }
}
