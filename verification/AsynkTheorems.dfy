/** The promises of the asynchronous sink writer, over every run from its initial state. */
module AsynkTheorems {
  import opened Basics
  import opened AsynkProtocol
  import opened AsynkProofs

  lemma RunInv(capacity: nat, ids: set<nat>, steps: seq<Step>)
    requires Run(Init(capacity, ids), steps)
    ensures Inv(After(Init(capacity, ids), steps))
  {
    InitInv(capacity, ids);
    RunKeepsInv(Init(capacity, ids), steps);
  }

  // ----- FIFO -----

  /** What the upstream has read, followed by what waits in the buffer, is what was accepted, in order. */
  lemma Fifo(capacity: nat, ids: set<nat>, steps: seq<Step>)
    requires Run(Init(capacity, ids), steps)
    ensures var t := After(Init(capacity, ids), steps);
            && Unread(t) <= t.index <= |t.buffer|
            && t.delivered + t.buffer[Unread(t)..t.index] == Stream(t.accepted)
  {
    RunInv(capacity, ids, steps);
  }

  /** The writer of each accepted byte. */
  ghost function Owners(log: seq<Piece>): (owners: seq<nat>)
    ensures |owners| == |Stream(log)|
  {
    if log == [] then []
    else Owners(log[..|log| - 1]) + seq(|log[|log| - 1].bytes|, _ => log[|log| - 1].writer)
  }

  /** The bytes that belong to `w`. */
  ghost function Select(bytes: seq<byte>, owners: seq<nat>, w: nat): seq<byte>
    requires |bytes| == |owners|
  {
    if bytes == [] then []
    else
      var k := |bytes| - 1;
      Select(bytes[..k], owners[..k], w) + if owners[k] == w then [bytes[k]] else []
  }

  lemma {:induction false} SelectExtends(bytes: seq<byte>, owners: seq<nat>, k: nat, w: nat)
    requires |bytes| == |owners| && k <= |bytes|
    ensures Select(bytes[..k], owners[..k], w) <= Select(bytes, owners, w)
    decreases |bytes|
  {
    if k == |bytes| {
      assert bytes[..k] == bytes && owners[..k] == owners;
    } else {
      var m := |bytes| - 1;
      SelectExtends(bytes[..m], owners[..m], k, w);
      assert bytes[..m][..k] == bytes[..k] && owners[..m][..k] == owners[..k];
    }
  }

  lemma {:induction false} SelectPiece(bytes: seq<byte>, owners: seq<nat>, piece: seq<byte>, v: nat, w: nat)
    requires |bytes| == |owners|
    ensures Select(bytes + piece, owners + seq(|piece|, _ => v), w)
         == if v == w then Select(bytes, owners, w) + piece else Select(bytes, owners, w)
    decreases |piece|
  {
    if piece == [] {
      assert bytes + piece == bytes;
      assert owners + seq(|piece|, _ => v) == owners;
    } else {
      var front, last := piece[..|piece| - 1], piece[|piece| - 1];
      var all, own := bytes + piece, owners + seq(|piece|, _ => v);
      SelectPiece(bytes, owners, front, v, w);
      assert all[..|all| - 1] == bytes + front;
      assert own[..|all| - 1] == owners + seq(|front|, _ => v);
      assert piece == front + [last];
    }
  }

  lemma {:induction false} SelectIsStreamOf(log: seq<Piece>, w: nat)
    ensures Select(Stream(log), Owners(log), w) == StreamOf(log, w)
  {
    if log != [] {
      var front, last := log[..|log| - 1], log[|log| - 1];
      SelectIsStreamOf(front, w);
      SelectPiece(Stream(front), Owners(front), last.bytes, last.writer, w);
    }
  }

  /** The bytes of one writer that the upstream has read. */
  ghost function DeliveredOf(s: State, w: nat): seq<byte>
    requires Flow(s)
  {
    var k := |s.delivered|;
    Select(Stream(s.accepted)[..k], Owners(s.accepted)[..k], w)
  }

  lemma DeliveredInOrder(t: State, w: nat)
    requires Inv(t) && w in t.calls
    ensures DeliveredOf(t, w) <= Flatten(t.calls[w])
  {
    SelectExtends(Stream(t.accepted), Owners(t.accepted), |t.delivered|, w);
    SelectIsStreamOf(t.accepted, w);
    assert FaithfulTo(t, w);
    AcceptedPrefix(t.writers[w], t.calls[w], StreamOf(t.accepted, w), t.failed);
  }

  lemma DeliveredAtRest(t: State, w: nat)
    requires Inv(t) && w in t.calls && t.consumer.Idle? && !t.token && !SomeNotifying(t)
    ensures DeliveredOf(t, w) == StreamOf(t.accepted, w)
  {
    QuiescentState(t);
    SelectIsStreamOf(t.accepted, w);
    assert Stream(t.accepted)[..|t.delivered|] == Stream(t.accepted);
    assert Owners(t.accepted)[..|t.delivered|] == Owners(t.accepted);
  }

  /** The upstream reads the bytes of each writer in the order that writer submitted them, with none left out. */
  lemma WriterOrder(capacity: nat, ids: set<nat>, steps: seq<Step>, w: nat)
    requires Run(Init(capacity, ids), steps) && w in After(Init(capacity, ids), steps).calls
    ensures var t := After(Init(capacity, ids), steps);
            Flow(t) && DeliveredOf(t, w) <= Flatten(t.calls[w])
  {
    RunInv(capacity, ids, steps);
    DeliveredInOrder(After(Init(capacity, ids), steps), w);
  }

  lemma AcceptedPrefix(wr: Writer, calls: seq<seq<byte>>, got: seq<byte>, failed: bool)
    requires Faithful(wr, calls, got, failed)
    ensures got <= Flatten(calls)
  {
    if !wr.Outside? {
      FlattenSnoc(calls[..|calls| - 1], wr.arg);
      assert calls == calls[..|calls| - 1] + [wr.arg];
    }
  }

  /** A call that came back without an error had all of its argument accepted, as had every earlier call. */
  lemma NilReturnAcceptsAll(capacity: nat, ids: set<nat>, steps: seq<Step>, w: nat)
    requires Run(Init(capacity, ids), steps)
    requires var t := After(Init(capacity, ids), steps); w in t.writers && t.writers[w].Outside?
    requires After(Init(capacity, ids), steps).writers[w].result != Refused
    ensures var t := After(Init(capacity, ids), steps);
            w in t.calls && StreamOf(t.accepted, w) == Flatten(t.calls[w])
  {
    RunInv(capacity, ids, steps);
    assert FaithfulTo(After(Init(capacity, ids), steps), w);
  }

  /**
   * In the middle of a call, the accepted part of it is a prefix of its argument; only a call that is about to
   * look at a known upstream error need not have had its earlier calls accepted in full.
   */
  lemma AcceptedPartIsPrefix(capacity: nat, ids: set<nat>, steps: seq<Step>, w: nat)
    requires Run(Init(capacity, ids), steps)
    requires var t := After(Init(capacity, ids), steps); w in t.writers && !t.writers[w].Outside?
    ensures var t := After(Init(capacity, ids), steps);
            var wr := t.writers[w];
            && w in t.calls && t.calls[w] != [] && t.calls[w][|t.calls[w]| - 1] == wr.arg
            && Taken(wr) <= |wr.arg|
            && (t.failed && wr.Checking? ==> StreamOf(t.accepted, w) <= Flatten(t.calls[w]))
            && (!t.failed || !wr.Checking? ==>
                  StreamOf(t.accepted, w) == Flatten(t.calls[w][..|t.calls[w]| - 1]) + wr.arg[..Taken(wr)])
  {
    RunInv(capacity, ids, steps);
    var t := After(Init(capacity, ids), steps);
    assert FaithfulTo(t, w);
    AcceptedPrefix(t.writers[w], t.calls[w], StreamOf(t.accepted, w), t.failed);
  }

  // ----- the count that comes back -----

  /** Along these steps every copy of the writer finds no room at all, or room for all that is left of its argument. */
  ghost predicate NeverInPart(s: State, steps: seq<Step>, w: nat)
    requires Run(s, steps)
    decreases steps
  {
    steps == []
    || ((steps[0] == Copy(w) ==>
           var room, left := |s.buffer| - s.index, |s.writers[w].arg| - s.writers[w].done;
           room == 0 || room >= left)
        && NeverInPart(Do(s, steps[0]), steps[1..], w))
  }

  ghost predicate NoCallOf(steps: seq<Step>, w: nat) {
    forall i :: 0 <= i < |steps| && steps[i].Call? ==> steps[i].w != w
  }

  /** A part of the argument was accepted, and the rest was left to a recursive call. */
  ghost predicate InPart(wr: Writer) {
    !wr.Outside? && (wr.done > 0 || (wr.Notifying? && 0 < wr.n < |wr.arg|))
  }

  ghost predicate Fits(wr: Writer) {
    !wr.Outside? ==> Taken(wr) <= |wr.arg|
  }

  /** What one step does to one writer's call. */
  lemma CallMovesOn(s: State, step: Step, w: nat)
    requires w in s.writers && Fits(s.writers[w]) && Enabled(s, step) && (step.Call? ==> step.w != w)
    ensures var old', new' := s.writers[w], Do(s, step).writers[w];
            && Fits(new')
            && (old'.Outside? ==> new' == old' && step != Copy(w))
            && (!old'.Outside? && !new'.Outside? ==>
                  && new'.arg == old'.arg
                  && (InPart(new') <==> (|| InPart(old')
                                         || (step == Copy(w) && 0 < |s.buffer| - s.index < |old'.arg| - old'.done))))
            && (!old'.Outside? && new'.Outside? && new'.result.Returned? ==>
                  && new'.result.arg == old'.arg && step != Copy(w)
                  && (new'.result.count == |old'.arg| <==> !InPart(old')))
  {
  }

  lemma {:induction false} CountFrom(s: State, steps: seq<Step>, w: nat)
    requires Run(s, steps) && NoCallOf(steps, w)
    requires w in s.writers && Fits(s.writers[w])
    requires var t := After(s, steps); w in t.writers && t.writers[w].Outside?
    ensures s.writers[w].Outside? ==> After(s, steps).writers[w] == s.writers[w] && NeverInPart(s, steps, w)
    ensures var result := After(s, steps).writers[w].result;
            !s.writers[w].Outside? && result.Returned? ==>
              && result.arg == s.writers[w].arg
              && (result.count == |result.arg| <==> !InPart(s.writers[w]) && NeverInPart(s, steps, w))
    decreases steps
  {
    if steps != [] {
      CallMovesOn(s, steps[0], w);
      CountFrom(Do(s, steps[0]), steps[1..], w);
    }
  }

  /**
   * The count a call returns with a nil error is the length of its argument exactly if no copy of that call
   * finds room for only a part of what is left of it.
   */
  lemma ReturnedCount(s: State, w: nat, p: seq<byte>, steps: seq<Step>)
    requires Enabled(s, Call(w, p)) && Run(Do(s, Call(w, p)), steps) && NoCallOf(steps, w)
    requires var t := After(Do(s, Call(w, p)), steps);
             w in t.writers && t.writers[w].Outside? && t.writers[w].result.Returned?
    ensures var result := After(Do(s, Call(w, p)), steps).writers[w].result;
            result.arg == p && (result.count == |p| <==> NeverInPart(Do(s, Call(w, p)), steps, w))
  {
    CountFrom(Do(s, Call(w, p)), steps, w);
  }

  /** So a caller gets the right count if its first copy finds room for all of its argument. */
  lemma RoomSuffices(s: State, w: nat, p: seq<byte>, steps: seq<Step>)
    requires w in s.writers && s.writers[w] == Copying(p, 0) && |p| <= |s.buffer| - s.index
    requires Run(s, [Copy(w)] + steps) && NoCallOf(steps, w)
    requires var t := After(s, [Copy(w)] + steps); w in t.writers && t.writers[w].Outside?
    ensures After(s, [Copy(w)] + steps).writers[w].result == Returned(|p|, p)
  {
    assert ([Copy(w)] + steps)[1..] == steps;
    var t := Do(s, Copy(w));
    assert t.writers[w] == Notifying(p, 0, |p|);
    NotifiesFor(t, steps, w);
  }

  lemma {:induction false} NotifiesFor(s: State, steps: seq<Step>, w: nat)
    requires Run(s, steps) && NoCallOf(steps, w)
    requires w in s.writers && s.writers[w].Notifying? && s.writers[w].done == 0 && s.writers[w].n == |s.writers[w].arg|
    requires var t := After(s, steps); w in t.writers && t.writers[w].Outside?
    ensures After(s, steps).writers[w].result == Returned(s.writers[w].n, s.writers[w].arg)
    decreases steps
  {
    var t := Do(s, steps[0]);
    StaysNotifying(s, steps[0], w);
    hide Do, Enabled, NeverInPart, InPart;
    if steps[0] == Notify(w) {
      CountFrom(t, steps[1..], w);
    } else {
      NotifiesFor(t, steps[1..], w);
    }
  }

  lemma StaysNotifying(s: State, step: Step, w: nat)
    requires Enabled(s, step) && (step.Call? ==> step.w != w)
    requires w in s.writers && s.writers[w].Notifying? && s.writers[w].done == 0 && s.writers[w].n == |s.writers[w].arg|
    ensures var wr, t := s.writers[w], Do(s, step);
            w in t.writers && t.writers[w] == if step == Notify(w) then Outside(Returned(wr.n, wr.arg)) else wr
  {
  }

  // ----- the slice read without the lock -----

  /** Nothing that happens while an upstream write is in progress changes the slice it was given. */
  lemma {:induction false} SliceStable(s: State, steps: seq<Step>)
    requires Inv(s) && s.consumer.Sending? && Run(s, steps)
    requires forall i :: 0 <= i < |steps| ==> !steps[i].SendReturns? && !steps[i].SendFails?
    ensures var t := After(s, steps);
            && t.consumer.Sending? && t.consumer.next == s.consumer.next && t.last == s.last
            && s.last <= s.consumer.next <= |s.buffer| && t.consumer.next <= |t.buffer|
            && t.buffer[t.last..t.consumer.next] == s.buffer[s.last..s.consumer.next]
    decreases steps
  {
    if steps != [] {
      StepKeepsInv(s, steps[0]);
      SliceStableStep(s, steps[0]);
      SliceStable(Do(s, steps[0]), steps[1..]);
    }
  }

  lemma SliceStableStep(s: State, step: Step)
    requires Flow(s) && s.consumer.Sending? && Enabled(s, step) && !step.SendReturns? && !step.SendFails?
    ensures var t := Do(s, step);
            t.consumer.Sending? && t.consumer.next == s.consumer.next && t.last == s.last && t.snapshot == s.snapshot
  {
  }

  // ----- notification and quiescence -----

  /** Bytes the consumer has not been told to send are announced, or their writer is about to announce them. */
  lemma NoLostNotification(capacity: nat, ids: set<nat>, steps: seq<Step>)
    requires Run(Init(capacity, ids), steps)
    requires var t := After(Init(capacity, ids), steps); t.index > Horizon(t) && !t.failed
    ensures var t := After(Init(capacity, ids), steps); t.token || t.consumer.Woken? || SomeNotifying(t)
  {
    RunInv(capacity, ids, steps);
  }

  /** With nobody in the middle of anything, everything accepted is delivered and the whole capacity is free. */
  lemma Quiescence(capacity: nat, ids: set<nat>, steps: seq<Step>)
    requires Run(Init(capacity, ids), steps)
    requires var t := After(Init(capacity, ids), steps); t.consumer.Idle? && !t.token && !SomeNotifying(t)
    ensures var t := After(Init(capacity, ids), steps);
            t.delivered == Stream(t.accepted) && t.index == 0 && t.last == 0
  {
    RunInv(capacity, ids, steps);
    QuiescentState(After(Init(capacity, ids), steps));
  }

  lemma QuiescentState(t: State)
    requires Inv(t) && t.consumer.Idle? && !t.token && !SomeNotifying(t)
    ensures t.delivered == Stream(t.accepted) && t.index == 0 && t.last == 0
  {
    assert t.delivered + t.buffer[0..0] == t.delivered;
  }

  // ----- reclaiming the capacity -----

  ghost function Finishes(steps: seq<Step>): nat
    decreases steps
  {
    if steps == [] then 0 else (if steps[0].Finish? then 1 else 0) + Finishes(steps[1..])
  }

  /** Somewhere along the run the buffer is empty. */
  ghost predicate SomewhereEmpty(s: State, steps: seq<Step>)
    requires Run(s, steps)
    decreases steps
  {
    s.index == 0 || (steps != [] && SomewhereEmpty(Do(s, steps[0]), steps[1..]))
  }

  /** The upstream write in progress was told of only a part of what is in the buffer. */
  ghost predicate ToldPart(s: State) {
    (s.consumer.Sending? || s.consumer.Sent?) && s.consumer.next < s.index
  }

  /**
   * A full buffer is empty again at the latest when a second upstream write has finished, and already with the
   * first one if that was told of all that is in the buffer.
   */
  lemma {:induction false} FullBufferDrains(s: State, steps: seq<Step>)
    requires Inv(s) && Run(s, steps) && s.index == |s.buffer|
    requires Finishes(steps) > if ToldPart(s) then 1 else 0
    ensures SomewhereEmpty(s, steps)
    decreases steps
  {
    if s.index > 0 {
      StepKeepsInv(s, steps[0]);
      FullStep(s, steps[0]);
      if Do(s, steps[0]).index > 0 {
        FullBufferDrains(Do(s, steps[0]), steps[1..]);
      }
    }
  }

  lemma FullStep(s: State, step: Step)
    requires Indices(s) && s.index == |s.buffer| > 0 && Enabled(s, step)
    ensures var t := Do(s, step);
            && (t.index == 0 || t.index == |t.buffer|)
            && (t.index > 0 && step.Finish? ==> ToldPart(s) && !ToldPart(t))
            && (t.index > 0 && ToldPart(t) ==> ToldPart(s))
  {
  }

  // ----- after an upstream error -----

  ghost function Copies(steps: seq<Step>, w: nat): nat
    decreases steps
  {
    if steps == [] then 0 else (if steps[0] == Copy(w) then 1 else 0) + Copies(steps[1..], w)
  }

  /** The copies a writer may still make: one, if it is past its check. */
  ghost function Allowed(wr: Writer): nat {
    if wr.Copying? then 1 else 0
  }

  /** Outside as it was, about to find out, or refused. */
  ghost predicate TurnedAway(before: Writer, after: Writer) {
    before.Outside? ==> after == before || after.Checking? || after == Outside(Refused)
  }

  lemma StepAfterError(s: State, step: Step, w: nat)
    requires Indices(s) && s.failed && w in s.writers && Enabled(s, step)
    ensures var t := Do(s, step);
            && Indices(t) && t.failed && w in t.writers && t.delivered == s.delivered
            && Allowed(t.writers[w]) + (if step == Copy(w) then 1 else 0) <= Allowed(s.writers[w])
            && (s.writers[w].Outside? || s.writers[w].Checking? ==>
                  t.writers[w] == s.writers[w] || t.writers[w].Checking? || t.writers[w] == Outside(Refused))
  {
  }

  lemma {:induction false} RunAfterError(s: State, steps: seq<Step>, w: nat)
    requires Indices(s) && s.failed && w in s.writers && Run(s, steps)
    ensures var t := After(s, steps);
            && t.failed && w in t.writers && t.delivered == s.delivered
            && Allowed(t.writers[w]) + Copies(steps, w) <= Allowed(s.writers[w])
            && (s.writers[w].Outside? || s.writers[w].Checking? ==>
                  t.writers[w] == s.writers[w] || t.writers[w].Checking? || t.writers[w] == Outside(Refused))
    decreases steps
  {
    hide Indices, Do, Enabled, Allowed;
    if steps != [] {
      StepAfterError(s, steps[0], w);
      RunAfterError(Do(s, steps[0]), steps[1..], w);
    }
  }

  /**
   * After an upstream error nothing more is delivered, a writer makes at most the one copy for which it had already
   * passed its check, woken or not, and a call that begins then copies nothing and is refused if it returns.
   */
  lemma ErrorStopsWrites(capacity: nat, ids: set<nat>, steps: seq<Step>, more: seq<Step>, w: nat)
    requires w in ids && Run(Init(capacity, ids), steps) && After(Init(capacity, ids), steps).failed
    requires Run(After(Init(capacity, ids), steps), more)
    ensures var s := After(Init(capacity, ids), steps);
            var t := After(s, more);
            && w in s.writers && w in t.writers && t.failed && t.delivered == s.delivered
            && Copies(more, w) <= (if s.writers[w].Copying? then 1 else 0)
            && TurnedAway(s.writers[w], t.writers[w])
  {
    RunInv(capacity, ids, steps);
    RunKeepsWriters(Init(capacity, ids), steps);
    RunAfterError(After(Init(capacity, ids), steps), more, w);
  }

  lemma {:induction false} RunKeepsWriters(s: State, steps: seq<Step>)
    requires Run(s, steps)
    ensures After(s, steps).writers.Keys == s.writers.Keys
    decreases steps
  {
    if steps != [] {
      RunKeepsWriters(Do(s, steps[0]), steps[1..]);
    }
  }

  // ----- every copy has its check -----

  ghost predicate Concerns(step: Step, w: nat) {
    match step
    case Call(v, _) => v == w
    case Check(v) => v == w
    case Copy(v) => v == w
    case Notify(v) => v == w
    case Park(v) => v == w
    case Finish(wake) => wake == Some(w)
    case _ => false
  }

  /** The latest step that concerns the writer, `before` if there is none. */
  ghost function Latest(before: Option<Step>, steps: seq<Step>, w: nat): Option<Step>
    decreases steps
  {
    if steps == [] then before
    else Latest(if Concerns(steps[0], w) then Some(steps[0]) else before, steps[1..], w)
  }

  ghost predicate Checked(s: State, w: nat, latest: Option<Step>) {
    w in s.writers && s.writers[w].Copying? ==> latest == Some(Check(w))
  }

  lemma {:induction false} RunChecked(s: State, steps: seq<Step>, w: nat, latest: Option<Step>)
    requires Checked(s, w, latest) && Run(s, steps)
    ensures Checked(After(s, steps), w, Latest(latest, steps, w))
    decreases steps
  {
    if steps != [] {
      var next := if Concerns(steps[0], w) then Some(steps[0]) else latest;
      assert Checked(Do(s, steps[0]), w, next);
      RunChecked(Do(s, steps[0]), steps[1..], w, next);
    }
  }

  /**
   * Whether it is the first of a call, one after a put that left bytes over, or one after a wait: the latest that
   * happened to a writer about to copy is that it looked at the upstream error.
   */
  lemma CheckedBeforeCopy(capacity: nat, ids: set<nat>, steps: seq<Step>, w: nat)
    requires Run(Init(capacity, ids), steps) && Enabled(After(Init(capacity, ids), steps), Copy(w))
    ensures Latest(None, steps, w) == Some(Check(w))
  {
    RunChecked(Init(capacity, ids), steps, w, None);
  }
}
