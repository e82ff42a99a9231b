/**
 * The asynchronous sink writing into the ring delayer. The upstream write of the sink is the Write of
 * the ring: each byte the sink's consumer reads without the lock is a byte of the ring's private copy.
 * The ring has other writers beside the sink, such as the puller with what the emulator replies.
 */
module Pipeline {
  import opened Basics
  import A = AsynkProtocol
  import AP = AsynkProofs
  import R = RingProtocol
  import RP = RingProofs

  datatype State = State(sink: A.State, ring: R.State)

  /** The consumer goroutine of the sink is writer 0 of the ring. */
  datatype Step =
    | Sink(a: A.Step)  // writers of the sink, and its consumer outside the upstream write
    | Enter            // the consumer calls Write of the ring
    | MoveByte         // one byte of the private copy
    | Lock             // the lock region of the ring's Write
    | HandBack         // notify, and return nil to the sink
    | Other(r: R.Step) // any other writer of the ring
    | Ring(r: R.Step)  // the consumer of the ring, and the clock

  function Init(capacity: nat, ids: set<nat>, others: set<nat>, delay: int, size: nat, now: int): State {
    State(A.Init(capacity, ids), R.Init(delay, size, {0} + others, now))
  }

  predicate Enabled(s: State, step: Step) {
    match step
    case Sink(a) => !a.SendByte? && !a.SendReturns? && !a.SendFails? && A.Enabled(s.sink, a)
    case Enter => s.sink.consumer.Sending? && R.Enabled(s.ring, R.Enter(0))
    case MoveByte => 0 in s.ring.writers && s.ring.writers[0].Filling? && A.Enabled(s.sink, A.SendByte)
    case Lock =>
      && R.Enabled(s.ring, R.Lock(0))
      && (s.ring.writers[0].Filling? ==> A.Enabled(s.sink, A.SendReturns))  // the copy is complete
    case HandBack => R.Enabled(s.ring, R.Notify(0)) && A.Enabled(s.sink, A.SendReturns)
    case Other(r) => (r.Enter? || r.Fill? || r.Lock? || r.Notify?) && r.w != 0 && R.Enabled(s.ring, r)
    case Ring(r) => (r.Take? || r.Peek? || r.Rouse? || r.Start? || r.Done? || r.Tick?) && R.Enabled(s.ring, r)
  }

  function Do(s: State, step: Step): State
    requires Enabled(s, step)
  {
    match step
    case Sink(a) => s.(sink := A.Do(s.sink, a))
    case Enter => s.(ring := R.Do(s.ring, R.Enter(0)))
    case MoveByte =>
      State(A.Do(s.sink, A.SendByte), R.Do(s.ring, R.Fill(0, s.sink.buffer[s.sink.consumer.pos])))
    case Lock => s.(ring := R.Do(s.ring, R.Lock(0)))
    case HandBack => State(A.Do(s.sink, A.SendReturns), R.Do(s.ring, R.Notify(0)))
    case Other(r) => s.(ring := R.Do(s.ring, r))
    case Ring(r) => s.(ring := R.Do(s.ring, r))
  }

  predicate Run(s: State, steps: seq<Step>)
    decreases steps
  {
    steps == [] || (Enabled(s, steps[0]) && Run(Do(s, steps[0]), steps[1..]))
  }

  function After(s: State, steps: seq<Step>): State
    requires Run(s, steps)
    decreases steps
  {
    if steps == [] then s else After(Do(s, steps[0]), steps[1..])
  }

  /** The bytes of the sink's chunks among those stored, in slot order. */
  ghost function Payload(stored: seq<R.Chunk>): seq<byte> {
    if stored == [] then []
    else
      var last := stored[|stored| - 1];
      Payload(stored[..|stored| - 1]) + if last.writer == 0 then last.bytes else []
  }

  /** What the final upstream has been given of the sink's; the k-th departure is that of the k-th chunk. */
  ghost function Output(departed: seq<R.Departure>, stored: seq<R.Chunk>): seq<byte>
    requires |departed| <= |stored|
  {
    if departed == [] then []
    else
      var n := |departed| - 1;
      Output(departed[..n], stored)
      + if stored[n].writer == 0 && departed[n].bytes.Some? then departed[n].bytes.value else []
  }

  /** What the ring's Write has copied and not yet stored. */
  ghost function InFlight(wr: R.Writer): seq<byte> {
    if wr.Filling? || wr.Asleep? || wr.Awake? then wr.bytes else []
  }

  /** How the two sides stand to each other. */
  ghost predicate Linked(s: State) {
    && 0 in s.ring.writers && !s.sink.failed
    && var wr, c := s.ring.writers[0], s.sink.consumer;
       && s.sink.delivered == Payload(s.ring.stored) + InFlight(wr)
       && (!wr.Outside? ==> c.Sending?)
       && (wr.Outside? && c.Sending? ==> c.pos == s.sink.last)
       && (wr.Asleep? || wr.Awake? || wr.Stored? ==> c.pos == c.next)
  }

  ghost predicate Inv(s: State) {
    AP.Inv(s.sink) && RP.Inv(s.ring) && Linked(s)
  }

  lemma PayloadSnoc(stored: seq<R.Chunk>, c: R.Chunk)
    ensures Payload(stored + [c]) == Payload(stored) + if c.writer == 0 then c.bytes else []
  {
    assert (stored + [c])[..|stored|] == stored;
  }

  lemma SinkStepKeepsLinked(s: State, a: A.Step)
    requires Linked(s) && Enabled(s, Sink(a))
    ensures Linked(Do(s, Sink(a)))
  {
  }

  lemma RingStepKeepsLinked(s: State, r: R.Step)
    requires Linked(s) && Enabled(s, Ring(r))
    ensures Linked(Do(s, Ring(r)))
  {
  }

  lemma OtherStepKeepsLinked(s: State, r: R.Step)
    requires Linked(s) && Enabled(s, Other(r))
    ensures Linked(Do(s, Other(r)))
  {
    var t := Do(s, Other(r));
    assert t.ring.writers[0] == s.ring.writers[0];
    if r.Lock? && s.ring.ring[s.ring.tail] == None {
      var wr := s.ring.writers[r.w];
      PayloadSnoc(s.ring.stored, R.Chunk(r.w, wr.stamp, wr.stamp + s.ring.delay, wr.bytes));
      assert Payload(t.ring.stored) == Payload(s.ring.stored) + [];
    }
  }

  lemma EnterKeepsLinked(s: State)
    requires Linked(s) && Enabled(s, Enter)
    ensures Linked(Do(s, Enter))
  {
  }

  lemma HandBackKeepsLinked(s: State)
    requires Linked(s) && Enabled(s, HandBack)
    ensures Linked(Do(s, HandBack))
  {
  }

  lemma MoveByteKeepsLinked(s: State)
    requires Linked(s) && Enabled(s, MoveByte)
    ensures Linked(Do(s, MoveByte))
  {
    var b := s.sink.buffer[s.sink.consumer.pos];
    AP.Regroup(Payload(s.ring.stored), s.ring.writers[0].bytes, [b]);
    var t := Do(s, MoveByte);
    assert t.ring.stored == s.ring.stored && InFlight(t.ring.writers[0]) == s.ring.writers[0].bytes + [b];
  }

  lemma StoreKeepsDelivered(s: State)
    requires Linked(s) && Enabled(s, Lock)
    ensures s.sink.delivered == Payload(R.Store(s.ring, 0).stored)
  {
    var wr := s.ring.writers[0];
    PayloadSnoc(s.ring.stored, R.Chunk(0, wr.stamp, wr.stamp + s.ring.delay, wr.bytes));
  }

  lemma LockKeepsLinked(s: State)
    requires Linked(s) && Enabled(s, Lock)
    ensures Linked(Do(s, Lock))
  {
    if s.ring.ring[s.ring.tail] == None {
      StoreKeepsDelivered(s);
      var t := Do(s, Lock);
      assert t.ring.stored == R.Store(s.ring, 0).stored && t.ring.writers[0].Stored?;
    }
  }

  lemma StepKeepsLinked(s: State, step: Step)
    requires Linked(s) && Enabled(s, step)
    ensures Linked(Do(s, step))
  {
    match step
    case Enter => EnterKeepsLinked(s);
    case HandBack => HandBackKeepsLinked(s);
    case Sink(a) => SinkStepKeepsLinked(s, a);
    case Ring(r) => RingStepKeepsLinked(s, r);
    case Other(r) => OtherStepKeepsLinked(s, r);
    case MoveByte => MoveByteKeepsLinked(s);
    case Lock => LockKeepsLinked(s);
  }

  lemma StepKeepsInv(s: State, step: Step)
    requires Inv(s) && Enabled(s, step)
    ensures Inv(Do(s, step))
  {
    StepKeepsLinked(s, step);
    match step
    case Sink(a) => AP.StepKeepsInv(s.sink, a);
    case Enter => RP.StepKeepsInv(s.ring, R.Enter(0));
    case MoveByte =>
      AP.StepKeepsInv(s.sink, A.SendByte);
      RP.StepKeepsInv(s.ring, R.Fill(0, s.sink.buffer[s.sink.consumer.pos]));
    case Lock => RP.StepKeepsInv(s.ring, R.Lock(0));
    case HandBack =>
      AP.StepKeepsInv(s.sink, A.SendReturns);
      RP.StepKeepsInv(s.ring, R.Notify(0));
    case Ring(r) => RP.StepKeepsInv(s.ring, r);
    case Other(r) => RP.StepKeepsInv(s.ring, r);
  }

  lemma {:induction false} RunKeepsInv(s: State, steps: seq<Step>)
    requires Inv(s) && Run(s, steps)
    ensures Inv(After(s, steps))
    decreases steps
  {
    hide Inv, Do, Enabled;
    if steps != [] {
      StepKeepsInv(s, steps[0]);
      RunKeepsInv(Do(s, steps[0]), steps[1..]);
    }
  }

  lemma InitLinked(capacity: nat, ids: set<nat>, others: set<nat>, delay: int, size: nat, now: int)
    ensures Linked(Init(capacity, ids, others, delay, size, now))
  {
    var s := Init(capacity, ids, others, delay, size, now);
    assert s.ring.writers[0] == R.Outside;
    assert s.sink.delivered == [] && Payload(s.ring.stored) == [];
  }

  lemma RunInv(capacity: nat, ids: set<nat>, others: set<nat>, delay: int, size: nat, now: int, steps: seq<Step>)
    requires size > 0 && Run(Init(capacity, ids, others, delay, size, now), steps)
    ensures Inv(After(Init(capacity, ids, others, delay, size, now), steps))
  {
    AP.InitInv(capacity, ids);
    RP.InitInv(delay, size, {0} + others, now);
    InitLinked(capacity, ids, others, delay, size, now);
    RunKeepsInv(Init(capacity, ids, others, delay, size, now), steps);
  }

  lemma {:induction false} OutputIsPayload(departed: seq<R.Departure>, stored: seq<R.Chunk>)
    requires |departed| <= |stored|
    requires forall k :: 0 <= k < |departed| ==> departed[k].bytes == Some(stored[k].bytes)
    ensures Output(departed, stored) == Payload(stored[..|departed|])
    decreases |departed|
  {
    if departed != [] {
      var n := |departed| - 1;
      OutputIsPayload(departed[..n], stored);
      assert stored[..n + 1][..n] == stored[..n];
    }
  }

  lemma {:induction false} PayloadExtends(stored: seq<R.Chunk>, k: nat)
    requires k <= |stored|
    ensures Payload(stored[..k]) <= Payload(stored)
    decreases |stored|
  {
    if k == |stored| {
      assert stored[..k] == stored;
    } else {
      var n := |stored| - 1;
      PayloadExtends(stored[..n], k);
      assert stored[..n][..k] == stored[..k];
    }
  }

  /**
   * Of the sink's chunks the final upstream is given a prefix of everything accepted from the sink's writers,
   * although the sink resets and overwrites its buffer while chunks of it are still waiting in the ring, and
   * although others write into the ring in between.
   */
  lemma OutputIsPrefix(capacity: nat, ids: set<nat>, others: set<nat>, delay: int, size: nat, now: int,
                       steps: seq<Step>)
    requires size > 0 && Run(Init(capacity, ids, others, delay, size, now), steps)
    ensures var t := After(Init(capacity, ids, others, delay, size, now), steps);
            |t.ring.departed| <= |t.ring.stored| && Output(t.ring.departed, t.ring.stored) <= A.Stream(t.sink.accepted)
  {
    RunInv(capacity, ids, others, delay, size, now, steps);
    var t := After(Init(capacity, ids, others, delay, size, now), steps);
    OutputIsPayload(t.ring.departed, t.ring.stored);
    PayloadExtends(t.ring.stored, |t.ring.departed|);
  }

  /** Both consumers are idle, nothing waits in either channel, and nobody is about to notify. */
  ghost predicate Quiet(s: State) {
    && s.sink.consumer.Idle? && !s.sink.token && !AP.SomeNotifying(s.sink)
    && s.ring.consumer.Idle? && s.ring.tokens == 0 && forall w :: w in s.ring.writers ==> !s.ring.writers[w].Stored?
  }

  /** Once everything is quiet, the final upstream has been given all of it. */
  lemma QuietMeansAllOut(capacity: nat, ids: set<nat>, others: set<nat>, delay: int, size: nat, now: int,
                         steps: seq<Step>)
    requires size > 0 && Run(Init(capacity, ids, others, delay, size, now), steps)
    requires Quiet(After(Init(capacity, ids, others, delay, size, now), steps))
    ensures var t := After(Init(capacity, ids, others, delay, size, now), steps);
            |t.ring.departed| <= |t.ring.stored| && Output(t.ring.departed, t.ring.stored) == A.Stream(t.sink.accepted)
  {
    RunInv(capacity, ids, others, delay, size, now, steps);
    AllOut(After(Init(capacity, ids, others, delay, size, now), steps));
  }

  lemma AllOut(t: State)
    requires Inv(t) && Quiet(t)
    ensures |t.ring.departed| <= |t.ring.stored| && Output(t.ring.departed, t.ring.stored) == A.Stream(t.sink.accepted)
  {
    assert t.sink.delivered + t.sink.buffer[0..0] == t.sink.delivered;
    assert RP.StoredIn(t.ring.writers) == {};
    assert t.ring.stored[..|t.ring.departed|] == t.ring.stored;
    OutputIsPayload(t.ring.departed, t.ring.stored);
    assert Payload(t.ring.stored) + [] == Payload(t.ring.stored);
  }

  // ----- one upstream write of the sink -----

  /** Writer 0 of the ring is copying, and the ring has a place for what it copies. */
  ghost predicate Passing(s: State) {
    && Inv(s) && s.sink.consumer.Sending? && s.ring.writers[0].Filling? && s.ring.ring[s.ring.tail] == None
  }

  lemma TwoSteps(s: State, a: Step, b: Step)
    requires Enabled(s, a) && Enabled(Do(s, a), b)
    ensures Run(s, [a, b]) && After(s, [a, b]) == Do(Do(s, a), b)
  {
    hide Do, Enabled;
    assert [a, b][1..] == [b] && [b][1..] == [];
    assert Run(Do(Do(s, a), b), []) && Run(Do(s, a), [b]);
    assert After(Do(s, a), [b]) == After(Do(Do(s, a), b), []);
  }

  lemma SliceStored(s: State)
    requires Passing(s) && s.sink.consumer.pos == s.sink.consumer.next
    ensures Enabled(s, Lock)
    ensures var t, wr := Do(s, Lock), s.ring.writers[0];
            && t.sink == s.sink && 0 in t.ring.writers && t.ring.writers[0].Stored? && t.ring.tokens == s.ring.tokens
            && t.ring.stored == s.ring.stored + [R.Chunk(0, wr.stamp, wr.stamp + s.ring.delay, wr.bytes)]
  {
  }

  lemma HandedBack(s: State)
    requires Inv(s) && 0 in s.ring.writers && s.ring.writers[0].Stored?
    ensures Enabled(s, HandBack)
    ensures var t, next := Do(s, HandBack), s.sink.consumer.next;
            && t.ring.stored == s.ring.stored && t.ring.tokens == s.ring.tokens + 1
            && t.sink == s.sink.(consumer := A.Sent(next), last := next)
  {
    assert 0 in RP.StoredIn(s.ring.writers);
  }

  lemma OneBytePassed(s: State) returns (t: State)
    requires Passing(s) && s.sink.consumer.pos < s.sink.consumer.next
    ensures Enabled(s, MoveByte) && t == Do(s, MoveByte) && Passing(t)
    ensures var c, wr, b := s.sink.consumer, s.ring.writers[0], s.sink.buffer[s.sink.consumer.pos];
            && t.sink == s.sink.(consumer := A.Sending(c.next, c.pos + 1), delivered := s.sink.delivered + [b])
            && t.ring == s.ring.(writers := s.ring.writers[0 := R.Filling(wr.stamp, wr.bytes + [b])])
  {
    StepKeepsInv(s, MoveByte);
    t := Do(s, MoveByte);
  }

  lemma ByteAndRest(before: seq<byte>, buffer: seq<byte>, pos: nat, next: nat)
    requires pos < next <= |buffer|
    ensures (before + [buffer[pos]]) + buffer[pos + 1..next] == before + buffer[pos..next]
  {
    assert buffer[pos..next] == [buffer[pos]] + buffer[pos + 1..next];
  }

  /** u is s with the rest of the slice passed on. */
  ghost predicate PassedOn(s: State, u: State)
    requires 0 in s.ring.writers && s.ring.writers[0].Filling? && s.sink.consumer.Sending?
    requires s.sink.consumer.pos <= s.sink.consumer.next <= |s.sink.buffer|
  {
    var c, wr := s.sink.consumer, s.ring.writers[0];
    var rest := s.sink.buffer[c.pos..c.next];
    && u.ring.stored == s.ring.stored + [R.Chunk(0, wr.stamp, wr.stamp + s.ring.delay, wr.bytes + rest)]
    && u.sink == s.sink.(consumer := A.Sent(c.next), last := c.next, delivered := s.sink.delivered + rest)
    && u.ring.tokens == s.ring.tokens + 1
  }

  lemma StepFirst(s: State, a: Step, more: seq<Step>)
    requires Enabled(s, a) && Run(Do(s, a), more)
    ensures Run(s, [a] + more) && After(s, [a] + more) == After(Do(s, a), more)
  {
    hide Do, Enabled;
    assert ([a] + more)[1..] == more;
  }

  lemma LastBytePassed(s: State)
    requires Passing(s) && s.sink.consumer.pos == s.sink.consumer.next <= |s.sink.buffer|
    ensures Run(s, [Lock, HandBack]) && PassedOn(s, After(s, [Lock, HandBack]))
  {
    assert Inv(s);
    hide Inv, Passing, PassedOn, Do, Enabled, Run, After;
    SliceStored(s);
    StepKeepsInv(s, Lock);
    HandedBack(Do(s, Lock));
    TwoSteps(s, Lock, HandBack);
    NothingLeft(s, Do(s, Lock), Do(Do(s, Lock), HandBack));
  }

  lemma NothingLeft(s: State, t: State, u: State)
    requires 0 in s.ring.writers && s.ring.writers[0].Filling? && s.sink.consumer.Sending?
    requires s.sink.consumer.pos == s.sink.consumer.next <= |s.sink.buffer|
    requires var wr, next := s.ring.writers[0], s.sink.consumer.next;
             && t.sink == s.sink && u.sink == t.sink.(consumer := A.Sent(next), last := next)
             && u.ring.stored == t.ring.stored
                == s.ring.stored + [R.Chunk(0, wr.stamp, wr.stamp + s.ring.delay, wr.bytes)]
             && t.ring.tokens == s.ring.tokens && u.ring.tokens == t.ring.tokens + 1
    ensures PassedOn(s, u)
  {
    var rest := s.sink.buffer[s.sink.consumer.pos..s.sink.consumer.next];
    assert s.ring.writers[0].bytes + rest == s.ring.writers[0].bytes && s.sink.delivered + rest == s.sink.delivered;
  }

  lemma ByteThenRest(s: State, t: State, u: State)
    requires 0 in s.ring.writers && s.ring.writers[0].Filling? && s.sink.consumer.Sending?
    requires s.sink.consumer.pos < s.sink.consumer.next <= |s.sink.buffer|
    requires var c, wr, b := s.sink.consumer, s.ring.writers[0], s.sink.buffer[s.sink.consumer.pos];
             && t.sink == s.sink.(consumer := A.Sending(c.next, c.pos + 1), delivered := s.sink.delivered + [b])
             && t.ring == s.ring.(writers := s.ring.writers[0 := R.Filling(wr.stamp, wr.bytes + [b])])
    requires PassedOn(t, u)
    ensures PassedOn(s, u)
  {
    var c, wr := s.sink.consumer, s.ring.writers[0];
    ByteAndRest(wr.bytes, s.sink.buffer, c.pos, c.next);
    ByteAndRest(s.sink.delivered, s.sink.buffer, c.pos, c.next);
  }

  lemma {:induction false} RestPasses(s: State) returns (steps: seq<Step>)
    requires Passing(s)
    ensures s.sink.consumer.pos <= s.sink.consumer.next <= |s.sink.buffer| && Run(s, steps)
    ensures PassedOn(s, After(s, steps))
    decreases s.sink.consumer.next - s.sink.consumer.pos
  {
    assert s.sink.consumer.pos <= s.sink.consumer.next <= |s.sink.buffer|;
    hide Passing, PassedOn, Do, Enabled, Run, After;
    if s.sink.consumer.pos == s.sink.consumer.next {
      steps := [Lock, HandBack];
      LastBytePassed(s);
    } else {
      var t := OneBytePassed(s);
      var more := RestPasses(t);
      steps := [MoveByte] + more;
      StepFirst(s, MoveByte, more);
      ByteThenRest(s, t, After(t, more));
    }
  }

  /**
   * From any reachable state in which the sink begins an upstream write and the ring has a free slot, the slice passes
   * into the ring: the call, byte after byte, the lock region and the return can be taken one after another, the slice
   * becomes one chunk due the delay after now, and the sink goes on as after an upstream write without an error.
   */
  lemma SlicePasses(capacity: nat, ids: set<nat>, others: set<nat>, delay: int, size: nat, now: int,
                    steps: seq<Step>) returns (more: seq<Step>)
    requires size > 0 && Run(Init(capacity, ids, others, delay, size, now), steps)
    requires var s := After(Init(capacity, ids, others, delay, size, now), steps);
             Enabled(s, Enter) && R.Shaped(s.ring) && s.ring.ring[s.ring.tail] == None
    ensures var s := After(Init(capacity, ids, others, delay, size, now), steps);
            && Run(s, more)
            && var t, c := After(s, more), s.sink.consumer;
               && t.ring.stored
                  == s.ring.stored + [R.Chunk(0, s.ring.now, s.ring.now + s.ring.delay, s.sink.snapshot)]
               && t.sink == s.sink.(consumer := A.Sent(c.next), last := c.next,
                                    delivered := s.sink.delivered + s.sink.snapshot)
               && t.ring.tokens == s.ring.tokens + 1
  {
    hide *;
    RunInv(capacity, ids, others, delay, size, now, steps);
    more := SlicePassesFrom(After(Init(capacity, ids, others, delay, size, now), steps));
  }

  lemma Entered(s: State)
    requires Inv(s) && Enabled(s, Enter) && s.ring.ring[s.ring.tail] == None
    ensures var t, c := Do(s, Enter), s.sink.consumer;
            && Passing(t) && c.pos <= c.next <= |s.sink.buffer| && s.sink.buffer[c.pos..c.next] == s.sink.snapshot
            && t.sink == s.sink && t.ring == s.ring.(writers := s.ring.writers[0 := R.Filling(s.ring.now, [])])
  {
    StepKeepsInv(s, Enter);
  }

  lemma AllPassed(s: State, t: State, u: State)
    requires s.sink.consumer.Sending? && s.sink.consumer.pos <= s.sink.consumer.next <= |s.sink.buffer|
    requires s.sink.buffer[s.sink.consumer.pos..s.sink.consumer.next] == s.sink.snapshot
    requires t.sink == s.sink && t.ring == s.ring.(writers := s.ring.writers[0 := R.Filling(s.ring.now, [])])
    requires PassedOn(t, u)
    ensures var c := s.sink.consumer;
            && u.ring.stored
               == s.ring.stored + [R.Chunk(0, s.ring.now, s.ring.now + s.ring.delay, s.sink.snapshot)]
            && u.sink == s.sink.(consumer := A.Sent(c.next), last := c.next,
                                 delivered := s.sink.delivered + s.sink.snapshot)
            && u.ring.tokens == s.ring.tokens + 1
  {
    assert [] + s.sink.snapshot == s.sink.snapshot;
  }

  lemma SlicePassesFrom(s: State) returns (more: seq<Step>)
    requires Inv(s) && Enabled(s, Enter) && s.ring.ring[s.ring.tail] == None
    ensures Run(s, more)
    ensures var t, c := After(s, more), s.sink.consumer;
            && t.ring.stored
               == s.ring.stored + [R.Chunk(0, s.ring.now, s.ring.now + s.ring.delay, s.sink.snapshot)]
            && t.sink == s.sink.(consumer := A.Sent(c.next), last := c.next,
                                 delivered := s.sink.delivered + s.sink.snapshot)
            && t.ring.tokens == s.ring.tokens + 1
  {
    var t := Do(s, Enter);
    Entered(s);
    hide Inv, Passing, PassedOn, Do, Enabled, Run, After;
    var rest := RestPasses(t);
    more := [Enter] + rest;
    StepFirst(s, Enter, rest);
    AllPassed(s, t, After(t, rest));
  }
}
