/** What every run of the asynchronous sink writer keeps, for any number of writers and any interleaving. */
module AsynkProofs {
  import opened Basics
  import opened AsynkProtocol

  // ----- the flow of bytes -----

  ghost predicate Indices(s: State) {
    && s.index <= |s.buffer|
    && match s.consumer
       case Idle => !s.failed && s.last <= s.index && (s.last == s.index ==> s.index == 0)
       case Woken => !s.failed && s.last <= s.index
       case Sending(next, pos) => !s.failed && s.last <= pos <= next <= s.index
       case Sent(next) => !s.failed && s.last == next <= s.index
       case Failed(pos) => s.failed && pos <= s.last <= s.index
  }

  /** Delivered bytes and the unread stretch of the buffer are together what was accepted, in order. */
  ghost predicate Flow(s: State) {
    && Indices(s)
    && s.delivered + s.buffer[Unread(s)..s.index] == Stream(s.accepted)
    && (s.consumer.Sending? ==> s.buffer[s.last..s.consumer.next] == s.snapshot)
  }

  lemma StreamSnoc(log: seq<Piece>, p: Piece)
    ensures Stream(log + [p]) == Stream(log) + p.bytes
  {
    assert (log + [p])[..|log|] == log;
  }

  lemma StreamOfSnoc(log: seq<Piece>, p: Piece, w: nat)
    ensures StreamOf(log + [p], w) == if p.writer == w then StreamOf(log, w) + p.bytes else StreamOf(log, w)
  {
    assert (log + [p])[..|log|] == log;
  }

  /** Writing `piece` at `i` leaves everything before `i` alone and extends every stretch ending at `i`. */
  lemma Splice(buf: seq<byte>, i: nat, piece: seq<byte>, lo: nat, hi: nat)
    requires lo <= hi <= i && i + |piece| <= |buf|
    ensures var out := buf[..i] + piece + buf[i + |piece|..];
            |out| == |buf| && out[lo..hi] == buf[lo..hi] && out[lo..i + |piece|] == buf[lo..i] + piece
  {
  }

  lemma Regroup(a: seq<byte>, b: seq<byte>, c: seq<byte>)
    ensures a + (b + c) == (a + b) + c
  {
  }

  /** The bytes a copy step moves. */
  ghost function CopiedPiece(s: State, w: nat): seq<byte>
    requires Enabled(s, Copy(w))
  {
    var arg, done := s.writers[w].arg, s.writers[w].done;
    arg[done..done + Min(|s.buffer| - s.index, |arg| - done)]
  }

  /** The copy step, with the piece it moves. */
  lemma CopyDoes(s: State, w: nat)
    requires Enabled(s, Copy(w))
    ensures var piece, n := CopiedPiece(s, w), |CopiedPiece(s, w)|;
            && s.index + n <= |s.buffer|
            && Do(s, Copy(w)) == s.(buffer := s.buffer[..s.index] + piece + s.buffer[s.index + n..],
                                    index := s.index + n,
                                    writers := s.writers[w := Notifying(s.writers[w].arg, s.writers[w].done, n)],
                                    accepted := s.accepted + [Piece(w, piece)])
  {
  }

  lemma CopyExtendsUnread(s: State, w: nat)
    requires Indices(s) && Enabled(s, Copy(w))
    ensures var t := Do(s, Copy(w));
            Indices(t) && t.buffer[Unread(s)..t.index] == s.buffer[Unread(s)..s.index] + CopiedPiece(s, w)
  {
    CopyDoes(s, w);
    hide Do, Enabled, CopiedPiece;
    Splice(s.buffer, s.index, CopiedPiece(s, w), Unread(s), s.index);
  }

  /** A writer never touches the slice the upstream is reading without the lock. */
  lemma CopyLeavesSlice(s: State, w: nat)
    requires Flow(s) && Enabled(s, Copy(w)) && s.consumer.Sending?
    ensures Do(s, Copy(w)).buffer[s.last..s.consumer.next] == s.snapshot
  {
    CopyDoes(s, w);
    hide Do, Enabled, CopiedPiece, Stream;
    Splice(s.buffer, s.index, CopiedPiece(s, w), s.last, s.consumer.next);
  }

  lemma CopyExtendsStream(s: State, w: nat, v: nat)
    requires Enabled(s, Copy(w))
    ensures Stream(Do(s, Copy(w)).accepted) == Stream(s.accepted) + CopiedPiece(s, w)
    ensures StreamOf(Do(s, Copy(w)).accepted, v)
         == if w == v then StreamOf(s.accepted, v) + CopiedPiece(s, w) else StreamOf(s.accepted, v)
  {
    CopyDoes(s, w);
    hide Do, Enabled, CopiedPiece, Stream, StreamOf;
    StreamSnoc(s.accepted, Piece(w, CopiedPiece(s, w)));
    StreamOfSnoc(s.accepted, Piece(w, CopiedPiece(s, w)), v);
  }

  lemma CopyKeepsFlow(s: State, w: nat)
    requires Flow(s) && Enabled(s, Copy(w))
    ensures Flow(Do(s, Copy(w)))
  {
    CopyExtendsUnread(s, w);
    CopyExtendsStream(s, w, w);
    Regroup(s.delivered, s.buffer[Unread(s)..s.index], CopiedPiece(s, w));
    if s.consumer.Sending? {
      CopyLeavesSlice(s, w);
    }
  }

  lemma StepKeepsFlow(s: State, step: Step)
    requires Flow(s) && Enabled(s, step)
    ensures Flow(Do(s, step))
  {
    match step
    case Copy(w) => CopyKeepsFlow(s, w);
    case SendByte =>
      var pos := s.consumer.pos;
      assert s.buffer[pos..s.index] == [s.buffer[pos]] + s.buffer[pos + 1..s.index];
    case Snapshot =>
    case _ =>
  }

  // ----- each writer's own bytes -----

  /**
   * What one writer got accepted: all its earlier calls and a prefix of the argument of the one in
   * progress. Only a refused call drops bytes, and after that no call of anyone copies a byte.
   */
  ghost predicate Faithful(wr: Writer, calls: seq<seq<byte>>, got: seq<byte>, failed: bool) {
    match wr
    case Outside(result) => got == Flatten(calls) || (failed && result == Refused && got <= Flatten(calls))
    case _ =>
      && calls != [] && calls[|calls| - 1] == wr.arg
      && Taken(wr) <= |wr.arg|
      && (wr.Parking? || wr.Sleeping? ==> wr.done < |wr.arg|)
      && (|| got == Flatten(calls[..|calls| - 1]) + wr.arg[..Taken(wr)]
          || (failed && wr.Checking? && got <= Flatten(calls)))
  }

  ghost predicate FaithfulTo(s: State, v: nat) {
    && v in s.writers && v in s.calls
    && Faithful(s.writers[v], s.calls[v], StreamOf(s.accepted, v), s.failed)
  }

  ghost predicate WritersFlow(s: State) {
    && s.writers.Keys == s.calls.Keys
    && forall w | w in s.writers :: FaithfulTo(s, w)
  }

  lemma CallKeepsFaithful(wr: Writer, calls: seq<seq<byte>>, got: seq<byte>, failed: bool, p: seq<byte>)
    requires Faithful(wr, calls, got, failed) && wr.Outside?
    ensures Faithful(Checking(p, 0), calls + [p], got, failed)
  {
    FlattenSnoc(calls, p);
    assert (calls + [p])[..|calls|] == calls;
    assert Flatten(calls) + p[..0] == Flatten(calls);
  }

  lemma CopyKeepsFaithful(arg: seq<byte>, done: nat, n: nat, calls: seq<seq<byte>>, got: seq<byte>, failed: bool)
    requires Faithful(Copying(arg, done), calls, got, failed) && done + n <= |arg|
    ensures Faithful(Notifying(arg, done, n), calls, got + arg[done..done + n], failed)
  {
    var before := Flatten(calls[..|calls| - 1]);
    assert arg[..done] + arg[done..done + n] == arg[..done + n];
    assert before + arg[..done + n] == (before + arg[..done]) + arg[done..done + n];
  }

  lemma ReturnKeepsFaithful(arg: seq<byte>, done: nat, n: nat, calls: seq<seq<byte>>, got: seq<byte>, failed: bool)
    requires Faithful(Notifying(arg, done, n), calls, got, failed) && |arg| <= done + n
    ensures Faithful(Outside(Returned(n, arg)), calls, got, failed)
  {
    assert arg[..done + n] == arg;
  }

  lemma RefuseKeepsFaithful(arg: seq<byte>, done: nat, calls: seq<seq<byte>>, got: seq<byte>)
    requires Faithful(Checking(arg, done), calls, got, true)
    ensures Faithful(Outside(Refused), calls, got, true)
  {
    var front := calls[..|calls| - 1];
    assert calls == front + [arg];
    FlattenSnoc(front, arg);
  }

  lemma PieceOfArgument(s: State, w: nat)
    requires Enabled(s, Copy(w))
    ensures var arg, done, n := s.writers[w].arg, s.writers[w].done, |CopiedPiece(s, w)|;
            && s.writers[w] == Copying(arg, done) && done + n <= |arg|
            && CopiedPiece(s, w) == arg[done..done + n]
  {
  }

  lemma CopyStepKeepsFaithful(s: State, w: nat, v: nat)
    requires FaithfulTo(s, v) && Enabled(s, Copy(w))
    ensures FaithfulTo(Do(s, Copy(w)), v)
  {
    hide Do, Enabled, CopiedPiece, StreamOf, Faithful;
    CopyDoes(s, w);
    CopyExtendsStream(s, w, v);
    if w == v {
      PieceOfArgument(s, w);
      CopyKeepsFaithful(s.writers[v].arg, s.writers[v].done, |CopiedPiece(s, w)|, s.calls[v],
                        StreamOf(s.accepted, v), s.failed);
    }
  }

  lemma NotifyStepKeepsFaithful(s: State, v: nat)
    requires FaithfulTo(s, v) && Enabled(s, Notify(v))
    ensures FaithfulTo(Do(s, Notify(v)), v)
  {
    var Notifying(arg, done, n) := s.writers[v];
    if |arg| <= done + n {
      ReturnKeepsFaithful(arg, done, n, s.calls[v], StreamOf(s.accepted, v), s.failed);
    }
  }

  lemma StepKeepsFaithful(s: State, step: Step, v: nat)
    requires Indices(s) && FaithfulTo(s, v) && Enabled(s, step)
    ensures FaithfulTo(Do(s, step), v)
  {
    match step
    case Copy(w) => CopyStepKeepsFaithful(s, w, v);
    case Notify(w) => if w == v { NotifyStepKeepsFaithful(s, v); }
    case Call(w, p) =>
      if w == v { CallKeepsFaithful(s.writers[v], s.calls[v], StreamOf(s.accepted, v), s.failed, p); }
    case Check(w) =>
      if w == v && s.failed {
        RefuseKeepsFaithful(s.writers[v].arg, s.writers[v].done, s.calls[v], StreamOf(s.accepted, v));
      }
    case _ =>
  }

  // ----- the invariant of every run -----

  ghost predicate Inv(s: State) {
    Flow(s) && WritersFlow(s) && Notified(s)
  }

  /** How far the upstream has been told to go. */
  ghost function Horizon(s: State): nat {
    match s.consumer
    case Sending(next, _) => next
    case Sent(next) => next
    case _ => s.last
  }

  ghost predicate SomeNotifying(s: State) {
    exists w :: w in s.writers && s.writers[w].Notifying?
  }

  /** No notification is lost: bytes beyond the consumer's horizon are announced, or about to be. */
  ghost predicate Notified(s: State) {
    s.index > Horizon(s) ==> s.failed || s.token || s.consumer.Woken? || SomeNotifying(s)
  }

  lemma StepKeepsNotified(s: State, step: Step)
    requires Indices(s) && Notified(s) && Enabled(s, step)
    ensures Notified(Do(s, step))
  {
    var t := Do(s, step);
    if SomeNotifying(s) && step != Notify(NotifyingOne(s)) {
      var v := NotifyingOne(s);
      assert t.writers[v].Notifying?;
    }
    if step.Copy? {
      assert t.writers[step.w].Notifying?;
    }
  }

  ghost function NotifyingOne(s: State): nat
    requires SomeNotifying(s)
    ensures NotifyingOne(s) in s.writers && s.writers[NotifyingOne(s)].Notifying?
  {
    var w :| w in s.writers && s.writers[w].Notifying?; w
  }

  lemma StepKeepsWritersFlow(s: State, step: Step)
    requires Indices(s) && WritersFlow(s) && Enabled(s, step)
    ensures WritersFlow(Do(s, step))
  {
    var t := Do(s, step);
    forall v | v in t.writers ensures FaithfulTo(t, v) {
      StepKeepsFaithful(s, step, v);
    }
  }

  lemma StepKeepsInv(s: State, step: Step)
    requires Inv(s) && Enabled(s, step)
    ensures Inv(Do(s, step))
  {
    StepKeepsFlow(s, step);
    StepKeepsNotified(s, step);
    StepKeepsWritersFlow(s, step);
  }

  lemma InitInv(capacity: nat, ids: set<nat>)
    ensures Inv(Init(capacity, ids))
  {
  }

  lemma {:induction false} RunKeepsInv(s: State, steps: seq<Step>)
    requires Inv(s) && Run(s, steps)
    ensures Inv(After(s, steps))
    decreases steps
  {
    hide Inv, Do, Enabled;
    if steps != [] {
      StepKeepsInv(s, steps[0]);
      RunKeepsInv(Do(s, steps[0]), steps[1..]);
    }
  }
}
