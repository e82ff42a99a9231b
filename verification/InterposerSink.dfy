/**
 * The interposer over its asynchronous sink. Each call of the interposer's Write calls Write of the sink with
 * the bytes for the host, and starts the callback when that has returned.
 */
module InterposerSink {
  import opened Basics
  import A = AsynkProtocol
  import AP = AsynkProofs
  import AT = AsynkTheorems
  import I = InterposerProtocol
  import IT = InterposerTrace
  import IR = InterposerReplies

  datatype State<E, S, P> = State(inter: I.State<E, S, P>, sink: A.State, calling: set<nat>)

  datatype Step =
    | Inter(step: I.Step)  // anybody in the interposer, outside the call of the sink
    | Call(w: nat)         // Write calls the sink
    | Sink(a: A.Step)      // the sink, except that nobody else calls it
    | Return(w: nat)       // the sink has returned, the callback starts

  function Init<E, S, P>(m: I.Mosh<E, S, P>, interval: int, ids: set<nat>, now: int, capacity: nat): State<E, S, P> {
    State(I.Init(m, interval, ids, now), A.Init(capacity, ids), {})
  }

  predicate Enabled<E, S, P>(s: State<E, S, P>, step: Step) {
    match step
    case Inter(i) => !i.WriteSubmit? && I.Enabled(s.inter, i)
    case Call(w) =>
      && w !in s.calling && w in s.inter.writers && s.inter.writers[w].Submitting?
      && A.Enabled(s.sink, A.Call(w, s.inter.writers[w].host))
    case Sink(a) => !a.Call? && A.Enabled(s.sink, a)
    case Return(w) =>
      && w in s.calling && w in s.sink.writers && s.sink.writers[w].Outside? && I.Enabled(s.inter, I.WriteSubmit(w))
  }

  function Do<E, S, P>(m: I.Mosh<E, S, P>, s: State<E, S, P>, step: Step): State<E, S, P>
    requires Enabled(s, step)
  {
    match step
    case Inter(i) => s.(inter := I.Do(m, s.inter, i))
    case Call(w) => s.(sink := A.Do(s.sink, A.Call(w, s.inter.writers[w].host)), calling := s.calling + {w})
    case Sink(a) => s.(sink := A.Do(s.sink, a))
    case Return(w) => s.(inter := I.Do(m, s.inter, I.WriteSubmit(w)), calling := s.calling - {w})
  }

  predicate Run<E, S, P>(m: I.Mosh<E, S, P>, s: State<E, S, P>, steps: seq<Step>)
    decreases steps
  {
    steps == [] || (Enabled(s, steps[0]) && Run(m, Do(m, s, steps[0]), steps[1..]))
  }

  function After<E, S, P>(m: I.Mosh<E, S, P>, s: State<E, S, P>, steps: seq<Step>): State<E, S, P>
    requires Run(m, s, steps)
    decreases steps
  {
    if steps == [] then s else After(m, Do(m, s, steps[0]), steps[1..])
  }

  /** What a writer has in hand: the sink was called with it and has not returned. */
  ghost function InHand<E, S, P>(s: State<E, S, P>, w: nat): seq<seq<byte>> {
    if w in s.calling && w in s.inter.writers && s.inter.writers[w].Submitting? then [s.inter.writers[w].host] else []
  }

  ghost predicate LinkedTo<E, S, P>(s: State<E, S, P>, w: nat) {
    && w in s.inter.writers && w in s.sink.writers && w in s.sink.calls
    && s.sink.calls[w] == IR.By(s.inter.submitted, w) + InHand(s, w)
    && (w in s.calling ==> s.inter.writers[w].Submitting?)
    && (w !in s.calling ==> s.sink.writers[w].Outside?)
  }

  /** The sink's calls of each writer are what it submitted and what it has in hand. */
  ghost predicate Linked<E, S, P>(s: State<E, S, P>, ids: set<nat>) {
    s.inter.writers.Keys == s.sink.writers.Keys == ids && forall w :: w in ids ==> LinkedTo(s, w)
  }

  lemma InterLeaves<E, S, P>(m: I.Mosh<E, S, P>, s: I.State<E, S, P>, i: I.Step, w: nat)
    requires I.Enabled(s, i) && !i.WriteSubmit? && w in s.writers
    ensures var t := I.Do(m, s, i);
            && t.submitted == s.submitted && t.writers.Keys == s.writers.Keys
            && (s.writers[w].Submitting? ==> t.writers[w] == s.writers[w])
  {
    if !IR.OfWriter(i) {
      IR.WritersStay(m, s, i);
      hide I.Do, I.Enabled;
    }
  }

  lemma SinkLeaves(s: A.State, a: A.Step, w: nat)
    requires A.Enabled(s, a) && !a.Call? && w in s.writers
    ensures var t := A.Do(s, a);
            && t.calls == s.calls && t.writers.Keys == s.writers.Keys
            && (s.writers[w].Outside? ==> t.writers[w] == s.writers[w])
  {
  }

  lemma ReturnKeeps<E, S, P>(m: I.Mosh<E, S, P>, s: State<E, S, P>, v: nat, w: nat)
    requires LinkedTo(s, w) && LinkedTo(s, v) && Enabled(s, Return(v))
    ensures LinkedTo(Do(m, s, Return(v)), w)
  {
    var t, host := Do(m, s, Return(v)), s.inter.writers[v].host;
    IR.BySnoc(s.inter.submitted, I.Submission(v, host), w);
    assert t.inter.submitted == s.inter.submitted + [I.Submission(v, host)];
    assert w != v ==> t.inter.writers[w] == s.inter.writers[w];
  }

  lemma CallKeeps<E, S, P>(m: I.Mosh<E, S, P>, s: State<E, S, P>, v: nat, w: nat)
    requires LinkedTo(s, w) && LinkedTo(s, v) && Enabled(s, Call(v))
    ensures LinkedTo(Do(m, s, Call(v)), w)
  {
  }

  lemma StepKeepsLinked<E, S, P>(m: I.Mosh<E, S, P>, s: State<E, S, P>, ids: set<nat>, step: Step)
    requires Linked(s, ids) && Enabled(s, step)
    ensures Linked(Do(m, s, step), ids)
  {
    var t := Do(m, s, step);
    KeysStay(m, s, step);
    forall w | w in ids ensures LinkedTo(t, w) {
      match step
      case Inter(i) => InterLeaves(m, s.inter, i, w);
      case Sink(a) => SinkLeaves(s.sink, a, w);
      case Call(v) => CallKeeps(m, s, v, w);
      case Return(v) => ReturnKeeps(m, s, v, w);
    }
  }

  lemma KeysStay<E, S, P>(m: I.Mosh<E, S, P>, s: State<E, S, P>, step: Step)
    requires Enabled(s, step)
    ensures var t := Do(m, s, step);
            t.inter.writers.Keys == s.inter.writers.Keys && t.sink.writers.Keys == s.sink.writers.Keys
  {
    match step
    case Inter(i) => InterKeys(m, s.inter, i);
    case Sink(a) => SinkKeys(s.sink, a);
    case Call(w) => SinkKeys(s.sink, A.Call(w, s.inter.writers[w].host));
    case Return(w) => InterKeys(m, s.inter, I.WriteSubmit(w));
  }

  lemma InterKeys<E, S, P>(m: I.Mosh<E, S, P>, s: I.State<E, S, P>, i: I.Step)
    requires I.Enabled(s, i)
    ensures I.Do(m, s, i).writers.Keys == s.writers.Keys
  {
    if !IR.OfWriter(i) {
      IR.WritersStay(m, s, i);
      hide I.Do, I.Enabled;
    }
  }

  lemma SinkKeys(s: A.State, a: A.Step)
    requires A.Enabled(s, a)
    ensures A.Do(s, a).writers.Keys == s.writers.Keys
  {
  }

  ghost predicate Inv<E, S, P>(s: State<E, S, P>, ids: set<nat>) {
    AP.Inv(s.sink) && Linked(s, ids)
  }

  lemma StepKeepsInv<E, S, P>(m: I.Mosh<E, S, P>, s: State<E, S, P>, ids: set<nat>, step: Step)
    requires Inv(s, ids) && Enabled(s, step)
    ensures Inv(Do(m, s, step), ids)
  {
    StepKeepsLinked(m, s, ids, step);
    if step.Sink? {
      AP.StepKeepsInv(s.sink, step.a);
    } else if step.Call? {
      AP.StepKeepsInv(s.sink, A.Call(step.w, s.inter.writers[step.w].host));
    }
  }

  lemma {:induction false} RunKeepsInv<E, S, P>(m: I.Mosh<E, S, P>, s: State<E, S, P>, ids: set<nat>, steps: seq<Step>)
    requires Inv(s, ids) && Run(m, s, steps)
    ensures Inv(After(m, s, steps), ids)
    decreases steps
  {
    hide Inv, Do, Enabled;
    if steps != [] {
      StepKeepsInv(m, s, ids, steps[0]);
      RunKeepsInv(m, Do(m, s, steps[0]), ids, steps[1..]);
    }
  }

  lemma RunInv<E, S, P>(m: I.Mosh<E, S, P>, interval: int, ids: set<nat>, now: int, capacity: nat, steps: seq<Step>)
    requires Run(m, Init(m, interval, ids, now, capacity), steps)
    ensures Inv(After(m, Init(m, interval, ids, now, capacity), steps), ids)
  {
    AP.InitInv(capacity, ids);
    RunKeepsInv(m, Init(m, interval, ids, now, capacity), ids, steps);
  }

  // ----- the interposer's part of a run -----

  function Inner(step: Step): seq<I.Step> {
    match step
    case Inter(i) => [i]
    case Return(w) => [I.WriteSubmit(w)]
    case _ => []
  }

  /** The steps of the interposer in a run of both. */
  function Inners(steps: seq<Step>): seq<I.Step>
    decreases steps
  {
    if steps == [] then [] else Inner(steps[0]) + Inners(steps[1..])
  }

  lemma {:induction false} InnersRun<E, S, P>(m: I.Mosh<E, S, P>, s: State<E, S, P>, steps: seq<Step>)
    requires Run(m, s, steps)
    ensures I.Run(m, s.inter, Inners(steps)) && I.After(m, s.inter, Inners(steps)) == After(m, s, steps).inter
    decreases steps
  {
    if steps != [] {
      var t := Do(m, s, steps[0]);
      InnersRun(m, t, steps[1..]);
      if Inner(steps[0]) == [] {
        assert Inners(steps) == Inners(steps[1..]) && t.inter == s.inter;
      } else {
        assert Inners(steps)[1..] == Inners(steps[1..]) && t.inter == I.Do(m, s.inter, Inner(steps[0])[0]);
      }
    }
  }

  /** The replies to the bytes of each call of Write of one writer, told from the steps alone. */
  ghost function Replies<E, S, P>(m: I.Mosh<E, S, P>, now: int, steps: seq<Step>, w: nat): seq<seq<byte>> {
    IR.Answers(m, IT.Start(now), Inners(steps), w)
  }

  lemma SubmittedAreReplies<E, S, P>(m: I.Mosh<E, S, P>, interval: int, ids: set<nat>, now: int, capacity: nat,
                                     steps: seq<Step>, w: nat)
    requires Run(m, Init(m, interval, ids, now, capacity), steps)
    ensures var t := After(m, Init(m, interval, ids, now, capacity), steps).inter;
            IR.By(t.submitted, w) + IR.Held(t.writers, w) == Replies(m, now, steps, w)
  {
    InnersRun(m, Init(m, interval, ids, now, capacity), steps);
    IR.SubmittedAreReplies(m, interval, ids, now, Inners(steps), w);
  }

  lemma {:induction false} FlattenPrefix(parts: seq<seq<byte>>, more: seq<seq<byte>>)
    ensures Flatten(parts) <= Flatten(parts + more)
    decreases |more|
  {
    if more == [] {
      assert parts + more == parts;
    } else {
      FlattenPrefix(parts, more[..|more| - 1]);
      FlattenSnoc(parts + more[..|more| - 1], more[|more| - 1]);
      assert parts + more == parts + more[..|more| - 1] + [more[|more| - 1]];
    }
  }

  /**
   * In every run of both, with any writers, reads, closes and chunks from upstream in between, the upstream is given
   * of each writer a prefix of what the emulator replies to the bytes of its calls of Write, in order.
   */
  lemma UpstreamGetsReplies<E, S, P>(m: I.Mosh<E, S, P>, interval: int, ids: set<nat>, now: int, capacity: nat,
                                     steps: seq<Step>, w: nat)
    requires w in ids && Run(m, Init(m, interval, ids, now, capacity), steps)
    ensures var t := After(m, Init(m, interval, ids, now, capacity), steps);
            AP.Flow(t.sink) && AT.DeliveredOf(t.sink, w) <= Flatten(Replies(m, now, steps, w))
  {
    hide Run, Init, I.Run, I.Init, Replies, AP.Inv;
    var t := After(m, Init(m, interval, ids, now, capacity), steps);
    RunInv(m, interval, ids, now, capacity, steps);
    SubmittedAreReplies(m, interval, ids, now, capacity, steps, w);
    hide After;
    CalledFirst(t, w);
    DeliveredOfCalled(t, w);
  }

  lemma DeliveredOfCalled<E, S, P>(t: State<E, S, P>, w: nat)
    requires AP.Inv(t.sink) && LinkedTo(t, w)
    ensures AP.Flow(t.sink) && AT.DeliveredOf(t.sink, w) <= Flatten(IR.By(t.inter.submitted, w) + InHand(t, w))
  {
    AT.DeliveredInOrder(t.sink, w);
  }

  /** What the sink was called with comes first of what there is for it. */
  lemma CalledFirst<E, S, P>(t: State<E, S, P>, w: nat)
    requires LinkedTo(t, w)
    ensures Flatten(IR.By(t.inter.submitted, w) + InHand(t, w))
         <= Flatten(IR.By(t.inter.submitted, w) + IR.Held(t.inter.writers, w))
  {
    var before, held := IR.By(t.inter.submitted, w), IR.Held(t.inter.writers, w);
    if InHand(t, w) != held {
      FlattenPrefix(before, held);
      assert before + InHand(t, w) == before;
    }
  }

  /**
   * With the sink at rest, which it never is after an upstream error, and the writer not in it, it has been given all
   * that was handed over; once the writer's last call of the interposer is over, that is all the replies.
   */
  lemma RestMeansAllGiven<E, S, P>(m: I.Mosh<E, S, P>, interval: int, ids: set<nat>, now: int, capacity: nat,
                                   steps: seq<Step>, w: nat)
    requires w in ids && Run(m, Init(m, interval, ids, now, capacity), steps)
    requires var t := After(m, Init(m, interval, ids, now, capacity), steps);
             t.sink.consumer.Idle? && !t.sink.token && !AP.SomeNotifying(t.sink) && w !in t.calling
    ensures var t := After(m, Init(m, interval, ids, now, capacity), steps);
            && AP.Flow(t.sink) && AT.DeliveredOf(t.sink, w) == Flatten(IR.By(t.inter.submitted, w))
            && (IR.Held(t.inter.writers, w) == [] ==>
                  AT.DeliveredOf(t.sink, w) == Flatten(Replies(m, now, steps, w)))
  {
    RunInv(m, interval, ids, now, capacity, steps);
    SubmittedAreReplies(m, interval, ids, now, capacity, steps, w);
    var t := After(m, Init(m, interval, ids, now, capacity), steps);
    assert LinkedTo(t, w) && AP.FaithfulTo(t.sink, w);
    assert IR.By(t.inter.submitted, w) + [] == IR.By(t.inter.submitted, w);
    AT.DeliveredAtRest(t.sink, w);
  }
}
