/** The client's terminal: what it shows after all the bytes read so far, for every run of the interposer. */
module InterposerClient {
  import opened Basics
  import opened InterposerProtocol

  /** A terminal of kind K: what bytes do to it, and whether it shows a framebuffer. */
  datatype Terminal<!K, !S> = Terminal(patch: (K, seq<byte>) -> K, shows: (K, S) -> bool)

  /**
   * The laws of display and terminal: bytes may arrive in any portions, a difference takes the old
   * framebuffer to the new one, and a frame for an uninitialised display takes anything to the new one.
   */
  ghost predicate Lawful<E, S(!new), P, K(!new)>(m: Mosh<E, S, P>, c: Terminal<K, S>) {
    && (forall k, a, b :: c.patch(k, a + b) == c.patch(c.patch(k, a), b))
    && (forall k, before, after ::
          c.shows(k, before) ==> c.shows(c.patch(k, m.newFrame(true, before, after)), after))
    && (forall k, before, after :: c.shows(c.patch(k, m.newFrame(false, before, after)), after))
  }

  ghost function Waiting<S>(d: Display<S>): seq<byte> {
    if d.pending.Some? then d.pending.value else []
  }

  ghost function Coming(reader: Reader): seq<byte> {
    if reader.Delivering? then reader.emission else []
  }

  /** Everything made for the client so far: read, waiting in `pending`, or in the hands of a Read. */
  ghost function Stream<S>(d: Display<S>, reader: Reader): seq<byte> {
    d.output + Waiting(d) + Coming(reader)
  }

  ghost predicate Refines<E, S, P, K>(c: Terminal<K, S>, start: K, s: State<E, S, P>) {
    var d, reader, frames := s.display, s.updates.reader, s.clock.frames;
    && (!reader.Away? ==> d.pending == None && d.isOpen)
    && (if frames == [] then !d.initialized && !reader.Delivering?
        else && d.isOpen && d.localState == frames[|frames| - 1].shown
             && c.shows(c.patch(start, Stream(d, reader)), d.localState))
  }

  lemma DrainKeepsStream<S>(d: Display<S>, size: nat)
    requires d.pending.Some?
    ensures Stream(Drain(d, size), Away) == Stream(d, Away)
  {
    var bytes := d.pending.value;
    Rejoin(d.output, bytes, Min(size, |bytes|));
  }

  lemma Rejoin(before: seq<byte>, bytes: seq<byte>, n: nat)
    requires n <= |bytes|
    ensures (before + bytes[..n]) + bytes[n..] == before + bytes
    ensures n == |bytes| ==> before + bytes[..n] == before + bytes
  {
    assert bytes == bytes[..n] + bytes[n..];
  }

  lemma DeliverKeepsStream<S>(d: Display<S>, size: nat, began: int, prediction: bool, emission: seq<byte>)
    requires d.pending == None
    ensures Stream(Give(d, size, emission), Away) == Stream(d, Delivering(size, began, prediction, emission))
  {
    var n, t := Min(size, |emission|), Give(d, size, emission);
    Rejoin(d.output, emission, n);
    assert d.output + [] == d.output && t.output + [] == t.output;
    assert [] + emission[n..] == emission[n..];
    assert Waiting(t) == if n < |emission| then emission[n..] else [];
  }

  lemma FrameExtendsStream<E, S, P>(m: Mosh<E, S, P>, s: State<E, S, P>)
    requires Enabled(s, MakeFrame) && s.display.pending == None
    ensures var t := Do(m, s, MakeFrame);
            var d := s.display;
            && t.display.output == d.output && t.display.pending == None && t.updates.reader.Delivering?
            && Stream(t.display, t.updates.reader)
               == Stream(d, s.updates.reader) + m.newFrame(d.initialized, d.localState, t.display.localState)
  {
  }

  lemma FrameKeepsRefines<E, S(!new), P, K(!new)>(m: Mosh<E, S, P>, c: Terminal<K, S>, start: K, s: State<E, S, P>)
    requires Lawful(m, c) && Refines(c, start, s) && Enabled(s, MakeFrame)
    ensures Refines(c, start, Do(m, s, MakeFrame))
  {
    var d, t := s.display, Do(m, s, MakeFrame);
    FrameExtendsStream(m, s);
    var before, frame := Stream(d, s.updates.reader), m.newFrame(d.initialized, d.localState, t.display.localState);
    assert c.patch(start, before + frame) == c.patch(c.patch(start, before), frame);
  }

  lemma ReadKeepsRefines<E, S, P, K>(m: Mosh<E, S, P>, c: Terminal<K, S>, start: K, s: State<E, S, P>, size: nat)
    requires Refines(c, start, s) && Enabled(s, Read(size))
    ensures Refines(c, start, Do(m, s, Read(size)))
  {
    if s.display.pending.Some? {
      DrainKeepsStream(s.display, size);
    }
  }

  lemma DeliverKeepsRefines<E, S, P, K>(m: Mosh<E, S, P>, c: Terminal<K, S>, start: K, s: State<E, S, P>)
    requires Refines(c, start, s) && Enabled(s, Deliver)
    ensures Refines(c, start, Do(m, s, Deliver))
  {
    var Delivering(size, began, prediction, emission) := s.updates.reader;
    DeliverKeepsStream(s.display, size, began, prediction, emission);
  }

  lemma OthersKeepRefines<E, S, P, K>(m: Mosh<E, S, P>, c: Terminal<K, S>, start: K, s: State<E, S, P>, step: Step)
    requires Refines(c, start, s) && Enabled(s, step) && !step.Read? && !step.MakeFrame? && !step.Deliver?
    ensures Refines(c, start, Do(m, s, step))
  {
    var t := Do(m, s, step);
    assert t.display == s.display.(initialized := t.display.initialized) && t.clock.frames == s.clock.frames;
    assert Stream(t.display, t.updates.reader) == Stream(s.display, s.updates.reader);
  }

  lemma {:induction false} RunKeepsRefines<E, S(!new), P, K(!new)>(m: Mosh<E, S, P>, c: Terminal<K, S>, start: K,
                                                       s: State<E, S, P>, steps: seq<Step>)
    requires Lawful(m, c) && Refines(c, start, s) && Run(m, s, steps)
    ensures Refines(c, start, After(m, s, steps))
    decreases steps
  {
    hide Refines, Lawful, Do, Enabled;
    if steps != [] {
      match steps[0] {
        case MakeFrame => FrameKeepsRefines(m, c, start, s);
        case Read(size) => ReadKeepsRefines(m, c, start, s, size);
        case Deliver => DeliverKeepsRefines(m, c, start, s);
        case _ => OthersKeepRefines(m, c, start, s, steps[0]);
      }
      RunKeepsRefines(m, c, start, Do(m, s, steps[0]), steps[1..]);
    }
  }

  /**
   * Once a first frame has been made, a client terminal in any starting state that is given all bytes read,
   * then those still waiting, shows exactly `localState`, for every sequence of reads with buffers of any
   * size, writes with or without repaints, pulls and closes.
   */
  lemma ClientShowsLocalState<E, S(!new), P, K(!new)>(m: Mosh<E, S, P>, c: Terminal<K, S>, start: K,
                                          interval: int, ids: set<nat>, now: int, steps: seq<Step>)
    requires Lawful(m, c) && Run(m, Init(m, interval, ids, now), steps)
    requires After(m, Init(m, interval, ids, now), steps).clock.frames != []
    ensures var t := After(m, Init(m, interval, ids, now), steps);
            && t.display.localState == t.clock.frames[|t.clock.frames| - 1].shown
            && c.shows(c.patch(start, Stream(t.display, t.updates.reader)), t.display.localState)
  {
    RunKeepsRefines(m, c, start, Init(m, interval, ids, now), steps);
  }

  /** With nothing waiting and no Read under way, the client has the last frame on its screen. */
  lemma DrainedClient<E, S(!new), P, K(!new)>(m: Mosh<E, S, P>, c: Terminal<K, S>, start: K,
                                  interval: int, ids: set<nat>, now: int, steps: seq<Step>)
    requires Lawful(m, c) && Run(m, Init(m, interval, ids, now), steps)
    requires var t := After(m, Init(m, interval, ids, now), steps);
             t.clock.frames != [] && t.updates.reader.Away? && Waiting(t.display) == []
    ensures var t := After(m, Init(m, interval, ids, now), steps);
            c.shows(c.patch(start, t.display.output), t.clock.frames[|t.clock.frames| - 1].shown)
  {
    ClientShowsLocalState(m, c, start, interval, ids, now, steps);
    var t := After(m, Init(m, interval, ids, now), steps);
    assert Stream(t.display, t.updates.reader) == t.display.output;
  }
}
