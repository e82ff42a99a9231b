/** The ring delayer as an object over its ring arrays: each method is one or more atomic steps of the protocol. */
module RingObject {
  import opened Basics
  import opened RingProtocol
  import opened RingProofs

  /** Reading the clock and copying the whole argument, with nothing in between. */
  function Capture(w: nat, p: seq<byte>): seq<Step> {
    if p == [] then [Enter(w)] else Capture(w, p[..|p| - 1]) + [Fill(w, p[|p| - 1])]
  }

  /** What is captured is the argument as it was, with the time of the call. */
  lemma {:induction false} CaptureIsCopy(s: State, w: nat, p: seq<byte>)
    requires Enabled(s, Enter(w))
    ensures Run(s, Capture(w, p)) && After(s, Capture(w, p)) == s.(writers := s.writers[w := Filling(s.now, p)])
    decreases p
  {
    if p == [] {
      assert Run(s, []) && After(s, []) == s;
      Extend(s, [], Enter(w));
      assert [] + [Enter(w)] == [Enter(w)];
    } else {
      var front, b := p[..|p| - 1], p[|p| - 1];
      CaptureIsCopy(s, w, front);
      Extend(s, Capture(w, front), Fill(w, b));
      assert front + [b] == p;
    }
  }

  class RingDelayer {
    const delay: int
    const ring: array<Option<seq<byte>>>
    const sendTime: array<int>
    var head: nat
    var tail: nat
    var notifyChan: nat  // tokens in the channel
    var clock: int
    // the consumer goroutine
    var consumer: Consumer
    // the calls of Write in progress
    var writers: map<nat, Writer>
    // history
    ghost var stored: seq<Chunk>
    ghost var popped: nat
    ghost var departed: seq<Departure>

    ghost function View(): State
      reads this, ring, sendTime
    {
      State(delay, ring[..], sendTime[..], head, tail, notifyChan, clock, consumer, writers, stored, popped, departed)
    }

    ghost predicate Valid()
      reads this, ring, sendTime
    {
      Inv(View())
    }

    constructor RingDelay(delay: int, ringSize: nat, ids: set<nat>, now: int)
      requires ringSize > 0
      ensures Valid() && fresh(ring) && fresh(sendTime) && View() == Init(delay, ringSize, ids, now)
    {
      this.delay := delay;
      ring := new Option<seq<byte>>[ringSize](_ => None);
      sendTime := new int[ringSize](_ => 0);
      head, tail, notifyChan, clock := 0, 0, 0, now;
      consumer := Idle;
      writers := map w | w in ids :: Outside;
      stored, popped, departed := [], 0, [];
      new;
      assert ring[..] == Init(delay, ringSize, ids, now).ring;
      assert sendTime[..] == Init(delay, ringSize, ids, now).sendTime;
      InitInv(delay, ringSize, ids, now);
    }

    /** The head of Write: the clock is read and a private copy of the caller's array is made. */
    method Prepare(w: nat, p: array<byte>)
      requires Valid() && Enabled(View(), Enter(w))
      modifies this`writers
      ensures Valid() && Run(old(View()), Capture(w, p[..])) && View() == After(old(View()), Capture(w, p[..]))
    {
      ghost var s := View();
      var now := clock;
      var buffer := [];
      var i := 0;
      while i < p.Length
        invariant i <= p.Length && buffer == p[..i]
      {
        buffer := buffer + [p[i]];
        i := i + 1;
      }
      assert buffer == p[..];
      CaptureIsCopy(s, w, p[..]);
      RunKeepsInv(s, Capture(w, p[..]));
      writers := writers[w := Filling(now, buffer)];
    }

    /** The lock region of Write: store into the tail slot if it is empty, otherwise wait. */
    method StoreOrWait(w: nat) returns (done: bool)
      requires Valid() && Enabled(View(), Lock(w))
      modifies this`tail, this`writers, this`stored, ring, sendTime
      ensures Valid() && View() == Do(old(View()), Lock(w))
      ensures done == old(Occupied(View()) < ring.Length)
    {
      ghost var s := View();
      TailFree(s);
      done := ring[tail] == None;
      assert done == (s.ring[s.tail] == None) && (done <==> Occupied(s) < ring.Length);
      hide Inv, Occupied;
      StepKeepsInv(s, Lock(w));
      if done {
        StoreChunk(w);
      } else {
        writers := writers[w := Asleep(writers[w].stamp, writers[w].bytes)];
      }
    }

    /** The tail slot takes the chunk. */
    method StoreChunk(w: nat)
      requires Enabled(View(), Lock(w))
      modifies this`tail, this`writers, this`stored, ring, sendTime
      ensures View() == Store(old(View()), w)
    {
      ghost var s := View();
      var stamp, buffer := writers[w].stamp, writers[w].bytes;
      FillSlot(stamp + delay, buffer);
      tail := (tail + 1) % ring.Length;
      stored := stored + [Chunk(w, stamp, stamp + delay, buffer)];
      writers := writers[w := Stored];
    }

    method FillSlot(due: int, buffer: seq<byte>)
      requires tail < ring.Length == sendTime.Length
      modifies ring, sendTime
      ensures ring[..] == old(ring[..])[tail := Some(buffer)] && sendTime[..] == old(sendTime[..])[tail := due]
    {
      ring[tail] := Some(buffer);
      sendTime[tail] := due;
    }

    method SendNotify(w: nat)
      requires Valid() && w in writers && writers[w].Stored?
      modifies this`notifyChan, this`writers
      ensures Enabled(old(View()), Notify(w))
      ensures Valid() && View() == Do(old(View()), Notify(w))
    {
      assert w in StoredIn(writers);
      assert Enabled(View(), Notify(w));
      hide Inv;
      StepKeepsInv(View(), Notify(w));
      notifyChan := notifyChan + 1;
      writers := writers[w := Outside];
    }

    method ReceiveToken()
      requires Valid() && Enabled(View(), Take)
      modifies this`notifyChan, this`consumer
      ensures Valid() && View() == Do(old(View()), Take)
    {
      hide Inv;
      StepKeepsInv(View(), Take);
      notifyChan := notifyChan - 1;
      consumer := Holding;
    }

    /** The end of a lock region of the consumer: the head slot is emptied and one waiting writer is signalled. */
    method PopHead(buffer: Option<seq<byte>>, wake: Option<nat>)
      requires Shaped(View()) && Signals(writers, wake)
      modifies this`head, this`consumer, this`writers, this`popped, ring
      ensures View() == Pop(old(View()), buffer, wake)
    {
      ghost var s := View();
      ring[head] := None;
      assert ring[..] == s.ring[head := None];
      head := (head + 1) % ring.Length;
      if wake.Some? {
        writers := writers[wake.value := Awake(writers[wake.value].stamp, writers[wake.value].bytes)];
      }
      consumer := Popped(buffer);
      popped := popped + 1;
    }

    /** The consumer looks at the head; `wait` tells how long it goes to sleep without the lock. */
    method PeekHead(wake: Option<nat>) returns (wait: int)
      requires Valid() && Enabled(View(), Peek(wake))
      modifies this`head, this`consumer, this`writers, this`popped, ring
      ensures Valid() && View() == Do(old(View()), Peek(wake))
      ensures wait > 0 <==> consumer.Dozing?
    {
      hide Inv;
      StepKeepsInv(View(), Peek(wake));
      wait := sendTime[head] - clock;
      var buffer := ring[head];
      if wait > 0 {
        consumer := Dozing(buffer, sendTime[head]);
      } else {
        PopHead(buffer, wake);
      }
    }

    method WakeUp(wake: Option<nat>)
      requires Valid() && Enabled(View(), Rouse(wake))
      modifies this`head, this`consumer, this`writers, this`popped, ring
      ensures Valid() && View() == Do(old(View()), Rouse(wake))
    {
      hide Inv;
      StepKeepsInv(View(), Rouse(wake));
      PopHead(consumer.buffer, wake);
    }

    /** The upstream write starts; what it is given is the next stored chunk. */
    method StartUpstream() returns (buffer: Option<seq<byte>>)
      requires Valid() && Enabled(View(), Start)
      modifies this`consumer, this`departed
      ensures Valid() && View() == Do(old(View()), Start)
      ensures |old(departed)| < |stored| && buffer == Some(stored[|old(departed)|].bytes)
    {
      assert |departed| < |stored| && consumer.buffer == Some(stored[|departed|].bytes);
      hide Inv;
      StepKeepsInv(View(), Start);
      buffer := consumer.buffer;
      departed := departed + [Departure(clock, buffer)];
      consumer := Sending;
    }

    method FinishUpstream()
      requires Valid() && Enabled(View(), Done)
      modifies this`consumer
      ensures Valid() && View() == Do(old(View()), Done)
    {
      hide Inv;
      StepKeepsInv(View(), Done);
      consumer := Idle;
    }

    method Elapse(d: nat)
      requires Valid()
      modifies this`clock
      ensures Valid() && View() == Do(old(View()), Tick(d))
    {
      hide Inv;
      StepKeepsInv(View(), Tick(d));
      clock := clock + d;
    }
  }
}
