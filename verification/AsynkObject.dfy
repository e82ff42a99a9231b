/** The asynchronous sink writer as an object over a byte array: each method is one atomic step of the protocol. */
module AsynkObject {
  import opened Basics
  import opened AsynkProtocol
  import opened AsynkProofs

  lemma OneByteMore(bytes: seq<byte>, lo: nat, hi: nat)
    requires lo <= hi < |bytes|
    ensures bytes[lo..hi] + [bytes[hi]] == bytes[lo..hi + 1]
  {
  }

  class Asynk {
    const buffer: array<byte>
    var bufferIndex: nat
    var writeNotify: bool          // a token is in the one-slot channel
    var upstreamErr: bool          // upstreamErr != nil
    // the consumer goroutine
    var lastTransmittedIndex: nat
    var consumer: Consumer
    // the calls of Write in progress
    var writers: map<nat, Writer>
    // history
    ghost var calls: map<nat, seq<seq<byte>>>
    ghost var accepted: seq<Piece>
    ghost var delivered: seq<byte>
    ghost var snapshot: seq<byte>

    ghost function View(): State
      reads this, buffer
    {
      State(buffer[..], bufferIndex, lastTransmittedIndex, writeNotify, upstreamErr, consumer, writers,
            calls, accepted, delivered, snapshot)
    }

    ghost predicate Valid()
      reads this, buffer
    {
      Inv(View())
    }

    constructor MakeAsynk(capacity: nat, ids: set<nat>)
      ensures Valid() && fresh(buffer) && View() == Init(capacity, ids)
    {
      buffer := new byte[capacity](_ => 0);
      bufferIndex, lastTransmittedIndex, writeNotify, upstreamErr := 0, 0, false, false;
      consumer := Idle;
      writers := map w | w in ids :: Outside(NoCall);
      calls := map w | w in ids :: [];
      accepted, delivered, snapshot := [], [], [];
      new;
      assert buffer[..] == Init(capacity, ids).buffer;
      InitInv(capacity, ids);
    }

    method Write(w: nat, p: seq<byte>)
      requires Valid() && Enabled(View(), Call(w, p))
      modifies this`writers, this`calls
      ensures Valid() && View() == Do(old(View()), Call(w, p))
    {
      hide Inv;
      StepKeepsInv(View(), Call(w, p));
      writers := writers[w := Checking(p, 0)];
      calls := calls[w := calls[w] + [p]];
    }

    method CheckError(w: nat)
      requires Valid() && Enabled(View(), Check(w))
      modifies this`writers
      ensures Valid() && View() == Do(old(View()), Check(w))
    {
      hide Inv;
      StepKeepsInv(View(), Check(w));
      writers := writers[w := if upstreamErr then Outside(Refused)
                              else Copying(writers[w].arg, writers[w].done)];
    }

    /** copy(asynk.buffer[asynk.bufferIndex:], arg[done:]) */
    method CopyPiece(arg: seq<byte>, done: nat) returns (n: nat)
      requires bufferIndex <= buffer.Length && done <= |arg|
      modifies buffer
      ensures n == Min(buffer.Length - bufferIndex, |arg| - done)
      ensures buffer[..] == old(buffer[..])[..bufferIndex] + arg[done..done + n] + old(buffer[..])[bufferIndex + n..]
    {
      n := CopyInto(buffer, bufferIndex, arg[done..]);
      assert arg[done..][..n] == arg[done..done + n];
    }

    /** The piece goes in, and the writer is on to its notification. */
    method TakePiece(w: nat, arg: seq<byte>, done: nat) returns (ghost piece: seq<byte>)
      requires bufferIndex <= buffer.Length && done <= |arg|
      modifies this`bufferIndex, this`writers, this`accepted, buffer
      ensures piece == arg[done..done + Min(buffer.Length - old(bufferIndex), |arg| - done)]
      ensures old(bufferIndex) + |piece| == bufferIndex <= buffer.Length
      ensures buffer[..] == old(buffer[..])[..old(bufferIndex)] + piece + old(buffer[..])[bufferIndex..]
      ensures accepted == old(accepted) + [Piece(w, piece)]
      ensures writers == old(writers)[w := Notifying(arg, done, |piece|)]
    {
      var n := CopyPiece(arg, done);
      piece := arg[done..done + n];
      bufferIndex := bufferIndex + n;
      accepted := accepted + [Piece(w, piece)];
      writers := writers[w := Notifying(arg, done, n)];
    }

    method CopyLocked(w: nat)
      requires Enabled(View(), Copy(w))
      modifies this`bufferIndex, this`writers, this`accepted, buffer
      ensures View() == Do(old(View()), Copy(w))
    {
      ghost var s := View();
      CopyDoes(s, w);
      assert CopiedPiece(s, w) == s.writers[w].arg[s.writers[w].done..s.writers[w].done + |CopiedPiece(s, w)|];
      hide Do;
      ghost var piece := TakePiece(w, writers[w].arg, writers[w].done);
      assert piece == CopiedPiece(s, w);
    }

    /** The lock region of Write: the bytes that fit go into the shared array. */
    method CopyIn(w: nat)
      requires Valid() && Enabled(View(), Copy(w))
      modifies this`bufferIndex, this`writers, this`accepted, buffer
      ensures Valid() && View() == Do(old(View()), Copy(w))
    {
      hide Inv;
      StepKeepsInv(View(), Copy(w));
      CopyLocked(w);
    }

    /** The select on writeNotify, and what Write decides after it. */
    method TryNotify(w: nat)
      requires Valid() && Enabled(View(), Notify(w))
      modifies this`writeNotify, this`writers
      ensures Valid() && View() == Do(old(View()), Notify(w))
    {
      hide Inv;
      StepKeepsInv(View(), Notify(w));
      PutToken(w);
    }

    method PutToken(w: nat)
      requires Enabled(View(), Notify(w))
      modifies this`writeNotify, this`writers
      ensures View() == Do(old(View()), Notify(w))
    {
      var arg, done := writers[w].arg, writers[w].done + writers[w].n;
      if !writeNotify {
        writeNotify := true;
        writers := writers[w := if |arg| > done then Checking(arg, done) else Outside(Returned(writers[w].n, arg))];
      } else {
        writers := writers[w := if |arg| > done then Parking(arg, done) else Outside(Returned(writers[w].n, arg))];
      }
    }

    method Wait(w: nat)
      requires Valid() && Enabled(View(), Park(w))
      modifies this`writers
      ensures Valid() && View() == Do(old(View()), Park(w))
    {
      hide Inv;
      StepKeepsInv(View(), Park(w));
      writers := writers[w := Sleeping(writers[w].arg, writers[w].done)];
    }

    method ReceiveToken()
      requires Valid() && Enabled(View(), Take)
      modifies this`writeNotify, this`consumer
      ensures Valid() && View() == Do(old(View()), Take)
    {
      hide Inv;
      StepKeepsInv(View(), Take);
      writeNotify := false;
      consumer := Woken;
    }

    method TakeSnapshot()
      requires Valid() && Enabled(View(), Snapshot)
      modifies this`consumer, this`snapshot
      ensures Valid() && View() == Do(old(View()), Snapshot)
    {
      hide Inv;
      StepKeepsInv(View(), Snapshot);
      snapshot := buffer[lastTransmittedIndex..bufferIndex];
      assert snapshot == buffer[..][lastTransmittedIndex..bufferIndex];
      consumer := Sending(bufferIndex, lastTransmittedIndex);
    }

    /** The upstream reads one more byte of the shared array, without the lock. */
    method UpstreamReads() returns (b: byte)
      requires Valid() && Enabled(View(), SendByte)
      modifies this`consumer, this`delivered
      ensures Valid() && View() == Do(old(View()), SendByte)
      ensures consumer.Sending? && b == buffer[old(consumer.pos)] && delivered == old(delivered) + [b]
    {
      hide Inv;
      StepKeepsInv(View(), SendByte);
      b := buffer[consumer.pos];
      delivered := delivered + [b];
      consumer := Sending(consumer.next, consumer.pos + 1);
    }

    method UpstreamReturns(err: bool)
      requires Valid() && Enabled(View(), if err then SendFails else SendReturns)
      modifies this`consumer, this`lastTransmittedIndex, this`upstreamErr
      ensures Valid() && View() == Do(old(View()), if err then SendFails else SendReturns)
    {
      hide Inv;
      StepKeepsInv(View(), if err then SendFails else SendReturns);
      upstreamErr := err;
      lastTransmittedIndex := consumer.next;
      consumer := if err then Failed(consumer.pos) else Sent(consumer.next);
    }

    /** The closing lock region of the consumer's round: reclaim the buffer if it is drained, then Signal. */
    method FinishRound(wake: Option<nat>)
      requires Valid() && Enabled(View(), Finish(wake))
      modifies this`consumer, this`bufferIndex, this`lastTransmittedIndex, this`writers
      ensures Valid() && View() == Do(old(View()), Finish(wake))
    {
      hide Inv;
      StepKeepsInv(View(), Finish(wake));
      Reclaim(wake);
    }

    method Reclaim(wake: Option<nat>)
      requires Enabled(View(), Finish(wake))
      modifies this`consumer, this`bufferIndex, this`lastTransmittedIndex, this`writers
      ensures View() == Do(old(View()), Finish(wake))
    {
      var postWriteIndex := bufferIndex;
      if postWriteIndex == consumer.next {
        bufferIndex := 0;
        lastTransmittedIndex := 0;
      }
      Signal(wake);
      consumer := Idle;
    }

    /** cond.Signal */
    method Signal(wake: Option<nat>)
      requires Signals(writers, wake)
      modifies this`writers
      ensures writers == Wake(old(writers), wake)
    {
      if wake.Some? {
        writers := writers[wake.value := Checking(writers[wake.value].arg, writers[wake.value].done)];
      }
    }

    /** A whole upstream write with nothing in between: the slice it was given, in order. */
    method UpstreamWrite()
      requires Valid() && consumer.Sending? && consumer.pos == lastTransmittedIndex
      modifies this`consumer, this`delivered
      ensures Valid() && consumer == Sending(old(consumer.next), old(consumer.next))
      ensures delivered == old(delivered) + buffer[lastTransmittedIndex..consumer.next]
    {
      var last := lastTransmittedIndex;
      assert consumer.next <= buffer.Length;
      hide *;
      while consumer.pos < consumer.next
        invariant Valid() && consumer.Sending?
        invariant last <= consumer.pos <= consumer.next == old(consumer.next) <= buffer.Length
        invariant delivered == old(delivered) + buffer[last..consumer.pos]
        decreases consumer.next - consumer.pos
      {
        OneByteMore(buffer[..], last, consumer.pos);
        ReadNext();
      }
    }

    method ReadNext()
      requires Valid() && consumer.Sending? && consumer.pos < consumer.next <= buffer.Length
      modifies this`consumer, this`delivered
      ensures Valid() && consumer == Sending(old(consumer.next), old(consumer.pos) + 1)
      ensures delivered == old(delivered) + [buffer[old(consumer.pos)]]
    {
      hide Inv;
      var _ := UpstreamReads();
    }

    /** Everything in the buffer goes out in order. */
    method Flush()
      requires Valid() && Enabled(View(), Take)
      modifies this`consumer, this`writeNotify, this`snapshot, this`delivered
      modifies this`lastTransmittedIndex, this`upstreamErr
      ensures Valid() && !writeNotify && consumer == Sent(bufferIndex)
      ensures delivered == old(delivered) + old(buffer[lastTransmittedIndex..bufferIndex])
    {
      ReceiveToken();
      TakeSnapshot();
      UpstreamWrite();
      UpstreamReturns(false);
    }

    /**
     * One whole round of the consumer with no writer in between: everything in the buffer goes out
     * in order, and the whole capacity is free again.
     */
    method Round(wake: Option<nat>)
      requires Valid() && Enabled(View(), Take) && Signals(writers, wake)
      modifies this`consumer, this`writeNotify, this`snapshot, this`delivered
      modifies this`lastTransmittedIndex, this`upstreamErr, this`bufferIndex, this`writers
      ensures Valid() && consumer.Idle? && !writeNotify && bufferIndex == 0 && lastTransmittedIndex == 0
      ensures delivered == old(delivered) + old(buffer[lastTransmittedIndex..bufferIndex])
    {
      Flush();
      FinishRound(wake);
    }
  }
}
