/** What the prediction engine is told of the keyboard. */
module InterposerTyping {
  import opened Basics
  import opened InterposerProtocol
  import opened InterposerTrace
  import opened InterposerStream

  /** The bytes the engine is told of, each with the screen given with it. */
  ghost function Keyed<S>(calls: seq<Call<S>>): seq<(byte, S)> {
    if calls == [] then []
    else
      var last := calls[|calls| - 1];
      Keyed(calls[..|calls| - 1]) + if last.UserByte? then [(last.b, last.local)] else []
  }

  lemma KeyedSnoc<S>(calls: seq<Call<S>>, c: Call<S>)
    ensures Keyed(calls + [c]) == Keyed(calls) + if c.UserByte? then [(c.b, c.local)] else []
  {
    assert (calls + [c])[..|calls|] == calls;
  }

  function With<S>(p: seq<byte>, local: S): seq<(byte, S)> {
    seq(|p|, i requires 0 <= i < |p| => (p[i], local))
  }

  lemma {:induction false} KeyedKeys<S>(calls: seq<Call<S>>, p: seq<byte>, local: S)
    ensures Keyed(calls + Keys(p, local)) == Keyed(calls) + With(p, local)
    decreases |p|
  {
    if p == [] {
      assert calls + Keys(p, local) == calls;
    } else {
      var front, b := p[..|p| - 1], p[|p| - 1];
      KeyedKeys(calls, front, local);
      KeyedSnoc(calls + Keys(front, local), UserByte(b, local));
      assert calls + Keys(p, local) == calls + Keys(front, local) + [UserByte(b, local)];
      assert With(p, local) == With(front, local) + [(b, local)];
    }
  }

  lemma {:induction false} KeyedOthers<S>(calls: seq<Call<S>>, more: seq<Call<S>>)
    requires forall c :: c in more ==> !c.UserByte?
    ensures Keyed(calls + more) == Keyed(calls)
    decreases |more|
  {
    if more == [] {
      assert calls + more == calls;
    } else {
      var front, last := more[..|more| - 1], more[|more| - 1];
      KeyedOthers(calls, front);
      KeyedSnoc(calls + front, last);
      assert calls + more == calls + front + [last];
    }
  }

  /** The engine was told of the keys noted, each with the screen the client had by then. */
  ghost predicate ToldKeys<E, S, P>(m: Mosh<E, S, P>, keyed: seq<(byte, S)>, frames: seq<Frame<S>>,
                                    keys: seq<(byte, nat)>) {
    && |keyed| == |keys|
    && forall i :: 0 <= i < |keys| ==>
         keys[i].1 <= |frames| && keyed[i] == (keys[i].0, ShownLast(m, frames[..keys[i].1]))
  }

  lemma WriteTold<E, S, P>(m: Mosh<E, S, P>, s: State<E, S, P>, w: nat, p: seq<byte>, keys: seq<(byte, nat)>)
    requires ToldKeys(m, Keyed(s.books.calls), s.clock.frames, keys) && Enabled(s, Write(w, p))
    requires s.display.localState == ShownLast(m, s.clock.frames)
    ensures var t := Do(m, s, Write(w, p));
            ToldKeys(m, Keyed(t.books.calls), t.clock.frames, keys + KeysAt(p, |s.clock.frames|))
  {
    var frames := s.clock.frames;
    KeyedOthers(s.books.calls, Telling(s.books, s.clock.now));
    KeyedKeys(s.books.calls + Telling(s.books, s.clock.now), p, s.display.localState);
    assert frames[..|frames|] == frames;
  }

  lemma FrameTold<E, S, P>(m: Mosh<E, S, P>, s: State<E, S, P>, keys: seq<(byte, nat)>)
    requires ToldKeys(m, Keyed(s.books.calls), s.clock.frames, keys) && Enabled(s, MakeFrame)
    ensures var t := Do(m, s, MakeFrame); ToldKeys(m, Keyed(t.books.calls), t.clock.frames, keys)
  {
    var t := Do(m, s, MakeFrame);
    KeyedSnoc(s.books.calls, Culled(s.screens.complete));
    forall i | 0 <= i < |keys| ensures t.clock.frames[..keys[i].1] == s.clock.frames[..keys[i].1] {
    }
  }

  /** The others tell the engine of no key. */
  lemma NoKeysTold<E, S, P>(m: Mosh<E, S, P>, s: State<E, S, P>, step: Step) returns (more: seq<Call<S>>)
    requires Enabled(s, step) && !step.MakeFrame? && !step.Write?
    ensures Do(m, s, step).books.calls == s.books.calls + more && forall c :: c in more ==> !c.UserByte?
    ensures Do(m, s, step).clock.frames == s.clock.frames
  {
    more := match step
            case WriteFinish(_) => [Sent(s.books.epoch + 1)]
            case Close(e) => [Acked(e), LateAcked(e), Interval(s.clock.now - s.books.epochs[e].openedAt)]
            case _ => [];
  }

  lemma KeysKept(step: Step, o: Onlooker)
    ensures Look(o, step).showing.keys
         == o.showing.keys + if step.Write? then KeysAt(step.p, |o.showing.sightings|) else []
  {
  }

  lemma StepTold<E, S, P>(m: Mosh<E, S, P>, s: State<E, S, P>, step: Step, o: Onlooker)
    requires ToldKeys(m, Keyed(s.books.calls), s.clock.frames, o.showing.keys) && Enabled(s, step)
    requires Streams(m, s, o)
    ensures var t := Do(m, s, step); ToldKeys(m, Keyed(t.books.calls), t.clock.frames, Look(o, step).showing.keys)
  {
    assert s.display.localState == ShownLast(m, s.clock.frames) && |o.showing.sightings| == |s.clock.frames|;
    hide Streams, ToldKeys, Keyed, Do, Enabled, Look, ShownLast;
    KeysKept(step, o);
    match step
    case Write(w, p) => WriteTold(m, s, w, p, o.showing.keys);
    case MakeFrame => FrameTold(m, s, o.showing.keys);
    case _ => OthersTold(m, s, step, o.showing.keys);
  }

  lemma OthersTold<E, S, P>(m: Mosh<E, S, P>, s: State<E, S, P>, step: Step, keys: seq<(byte, nat)>)
    requires ToldKeys(m, Keyed(s.books.calls), s.clock.frames, keys) && Enabled(s, step)
    requires !step.MakeFrame? && !step.Write?
    ensures var t := Do(m, s, step); ToldKeys(m, Keyed(t.books.calls), t.clock.frames, keys)
  {
    hide ToldKeys, Keyed, Do, Enabled;
    var more := NoKeysTold(m, s, step);
    KeyedOthers(s.books.calls, more);
  }

  lemma {:induction false} RunTold<E, S, P>(m: Mosh<E, S, P>, s: State<E, S, P>, o: Onlooker, steps: seq<Step>)
    requires ToldKeys(m, Keyed(s.books.calls), s.clock.frames, o.showing.keys)
    requires Streams(m, s, o) && Followed(m, s, o) && Run(m, s, steps)
    ensures var t := After(m, s, steps); ToldKeys(m, Keyed(t.books.calls), t.clock.frames, Watch(o, steps).showing.keys)
    decreases steps
  {
    hide Streams, Followed, ToldKeys, Keyed, Do, Enabled, Look;
    if steps != [] {
      StepTold(m, s, steps[0], o);
      StepStreams(m, s, steps[0], o);
      StepKeepsFollowed(m, s, steps[0], o);
      RunTold(m, Do(m, s, steps[0]), Look(o, steps[0]), steps[1..]);
    }
  }

  /**
   * In every run the engine is told of exactly the bytes written, in the order of the lock regions, each with the
   * screen that was shown by the last frame before it.
   */
  lemma EngineSeesKeys<E, S, P>(m: Mosh<E, S, P>, interval: int, ids: set<nat>, now: int, steps: seq<Step>)
    requires Run(m, Init(m, interval, ids, now), steps)
    ensures var t := After(m, Init(m, interval, ids, now), steps);
            ToldKeys(m, Keyed(t.books.calls), t.clock.frames, Watch(Start(now), steps).showing.keys)
  {
    var s := Init(m, interval, ids, now);
    ReachedStreams(m, interval, ids, now, []);
    hide Streams, Followed;
    RunTold(m, s, Start(now), steps);
  }
}
