/** Sink, connections that die and a high-water-mark consumer together: at-least-once, end to end. */
module Delivery {
  import opened Ascents
  import opened Sink
  import opened Receiver

  /** `wires` holds every connection ever opened, oldest first; while `connected`,
      the last one is live. A wire carries sequence numbers in FIFO order. Lines of a
      dead connection may still arrive late, or be lost.
      `waiting` says the send loop is blocked on the wake-up event. */
  datatype System = System(
    sink: Sink.State,
    consumer: View,
    wires: seq<seq<int>>,
    connected: bool,
    waiting: bool)

  datatype Event =
    | DoSend(line: seq<bv8>)
    | Connect
    | SendLoop               // one pass of the send loop: write the head, or go to sleep
    | Wake
    | AckReceived(ack: int)
    | Die
    | Deliver(wire: nat)
    | Lose(wire: nat, kept: nat)

  const START := System(Sink.INITIAL, View(-1, []), [], false, false)

  ghost predicate Enabled(x: System, e: Event) {
    match e
    case DoSend(_) => true
    case Connect => !x.connected
    case SendLoop => x.connected && !x.waiting
    case Wake => x.connected && x.waiting && x.sink.hasData
    case AckReceived(ack) => x.connected && ack <= x.consumer.mark
    case Die => x.connected
    case Deliver(i) => i < |x.wires| && x.wires[i] != []
    case Lose(i, kept) =>
      i < |x.wires| && kept <= |x.wires[i]| && !(x.connected && i == |x.wires| - 1)
  }

  /** The shape a step needs: counters that match the deques, and a wire while connected. */
  ghost predicate WellFormed(x: System) {
    Sink.Valid(x.sink) && (x.connected ==> x.wires != [])
  }

  /** What one enabled event does. */
  ghost function Step(x: System, e: Event, cap: nat): System
    requires WellFormed(x) && Enabled(x, e)
  {
    match e
    case DoSend(line) => x.(sink := AfterSend(x.sink, line, cap))
    case Connect =>
      x.(sink := AfterRequeue(x.sink), wires := x.wires + [[]], connected := true, waiting := false)
    case SendLoop =>
      if x.sink.unsent == [] then x.(sink := AfterIdle(x.sink), waiting := true)
      else
        var live := |x.wires| - 1;
        x.(sink := AfterWrite(x.sink),
           wires := x.wires[live := x.wires[live] + [x.sink.unsent[0].seqNo]])
    case Wake => x.(waiting := false)
    case AckReceived(ack) => x.(sink := AfterAck(x.sink, ack))
    case Die => x.(connected := false, waiting := false)
    case Deliver(i) =>
      x.(consumer := Offer(x.consumer, x.wires[i][0]), wires := x.wires[i := x.wires[i][1..]])
    case Lose(i, kept) => x.(wires := x.wires[i := x.wires[i][..kept]])
  }

  // --- the invariant -------------------------------------------------------------

  /** Numbers the consumer has passed without logging were evicted at the cap. */
  ghost predicate LogComplete(x: System) {
    && Ascending(x.consumer.log)
    && x.consumer.mark < x.sink.nextSeq
    && (forall q :: q in x.consumer.log ==> 1 <= q <= x.consumer.mark)
    && (forall q :: 1 <= q <= x.consumer.mark ==> q in x.consumer.log || WasDropped(x.sink.fates, q))
  }

  /** Only numbers at or below the mark were ever retired by an ack. */
  ghost predicate AcksSafe(x: System) {
    forall q :: WasAcked(x.sink.fates, q) ==> q <= x.consumer.mark
  }

  /** Delivering entry `i` of a wire skips nothing but evicted numbers. */
  ghost predicate WireCovered(x: System, w: seq<int>) {
    forall i, q :: 0 <= i < |w| && x.consumer.mark < q < w[i] && 1 <= q
      ==> q in w[..i] || WasDropped(x.sink.fates, q)
  }

  ghost predicate WireBounded(x: System, w: seq<int>) {
    forall i :: 0 <= i < |w| ==> 1 <= w[i] < x.sink.nextSeq
  }

  ghost predicate WiresOk(x: System) {
    forall k :: 0 <= k < |x.wires| ==> WireCovered(x, x.wires[k]) && WireBounded(x, x.wires[k])
  }

  function FirstUnsent(s: Sink.State): int {
    s.nextSeq - |s.unsent|
  }

  /** Everything already written and not yet received is on the live wire, or evicted. */
  ghost predicate LiveCovered(x: System) {
    x.connected ==>
      && x.wires != []
      && forall q :: x.consumer.mark < q < FirstUnsent(x.sink) && 1 <= q
           ==> q in x.wires[|x.wires| - 1] || WasDropped(x.sink.fates, q)
  }

  /** The send loop never sleeps through data. */
  ghost predicate NoLostWakeup(x: System) {
    && (x.waiting ==> x.connected)
    && (x.waiting && x.sink.unsent != [] ==> x.sink.hasData)
  }

  ghost predicate Inv(x: System) {
    && Sink.Valid(x.sink)
    && LogComplete(x)
    && AcksSafe(x)
    && WiresOk(x)
    && LiveCovered(x)
    && NoLostWakeup(x)
  }

  lemma UnsentNumber(s: Sink.State)
    requires Sink.Valid(s) && s.unsent != []
    ensures s.unsent[0].seqNo == FirstUnsent(s) && FirstUnsent(s) >= 1
  {
    assert Queue(s)[|s.unacked|] == s.unsent[0];
  }

  /** Coverage of a wire survives any step that only moves the mark up and retires more entries. */
  lemma WireKept(x: System, y: System, w: seq<int>)
    requires WireCovered(x, w) && WireBounded(x, w)
    requires x.consumer.mark <= y.consumer.mark && x.sink.nextSeq <= y.sink.nextSeq
    requires x.sink.fates <= y.sink.fates
    ensures WireCovered(y, w) && WireBounded(y, w)
  {
    forall i, q | 0 <= i < |w| && y.consumer.mark < q < w[i] && 1 <= q
      ensures q in w[..i] || WasDropped(y.sink.fates, q)
    {
      assert q in w[..i] || WasDropped(x.sink.fates, q);
    }
  }

  lemma WiresKept(x: System, y: System)
    requires WiresOk(x) && y.wires == x.wires
    requires x.consumer.mark <= y.consumer.mark && x.sink.nextSeq <= y.sink.nextSeq
    requires x.sink.fates <= y.sink.fates
    ensures WiresOk(y)
  {
    forall i | 0 <= i < |y.wires| ensures WireCovered(y, y.wires[i]) && WireBounded(y, y.wires[i]) {
      WireKept(x, y, x.wires[i]);
    }
  }

  lemma LogKept(x: System, y: System)
    requires LogComplete(x) && y.consumer == x.consumer
    requires x.sink.nextSeq <= y.sink.nextSeq && x.sink.fates <= y.sink.fates
    ensures LogComplete(y)
  {
    forall q | 1 <= q <= y.consumer.mark ensures q in y.consumer.log || WasDropped(y.sink.fates, q) {
      assert q in x.consumer.log || WasDropped(x.sink.fates, q);
    }
  }

  lemma SendKeeps(x: System, line: seq<bv8>, cap: nat)
    requires Inv(x)
    ensures Inv(Step(x, DoSend(line), cap))
  {
    var s, r := x.sink, AfterSend(x.sink, line, cap);
    var y := Step(x, DoSend(line), cap);
    SendExact(s, line, cap);
    WiresKept(x, y);
    LogKept(x, y);
    forall q | WasAcked(r.fates, q) ensures q <= y.consumer.mark {
      assert r.fates[q - 1] == Acked;
      assert q <= |s.fates| && WasAcked(s.fates, q);
    }
    if x.connected {
      forall q | y.consumer.mark < q < FirstUnsent(r) && 1 <= q
        ensures q in y.wires[|y.wires| - 1] || WasDropped(r.fates, q)
      {
        if q < FirstUnsent(s) {
          assert q in x.wires[|x.wires| - 1] || WasDropped(s.fates, q);
        } else {
          assert |s.fates| < q <= |r.fates| && r.fates[q - 1] == Dropped;
        }
      }
    }
  }

  /** A number already retired and still above the mark can only have been evicted. */
  lemma RetiredAboveMark(x: System, q: int)
    requires AcksSafe(x) && 1 <= q <= |x.sink.fates| && q > x.consumer.mark
    ensures WasDropped(x.sink.fates, q)
  {
    assert !WasAcked(x.sink.fates, q);
  }

  lemma AcksKept(x: System, y: System)
    requires AcksSafe(x) && y.consumer == x.consumer && y.sink.fates == x.sink.fates
    ensures AcksSafe(y)
  {
  }

  /** A new connection starts with an empty wire. */
  lemma ConnectWires(x: System, y: System)
    requires WiresOk(x) && y.wires == x.wires + [[]]
    requires x.consumer.mark <= y.consumer.mark && x.sink.nextSeq <= y.sink.nextSeq
    requires x.sink.fates <= y.sink.fates
    ensures WiresOk(y)
  {
    forall i | 0 <= i < |y.wires| ensures WireCovered(y, y.wires[i]) && WireBounded(y, y.wires[i]) {
      if i < |x.wires| {
        WireKept(x, y, x.wires[i]);
      }
    }
  }

  /** After the requeue, whatever is below the first unsent number has been retired. */
  lemma ConnectLive(x: System, y: System)
    requires Inv(x) && y.consumer == x.consumer && y.sink.fates == x.sink.fates
    requires y.wires != [] && FirstUnsent(y.sink) == |x.sink.fates| + 1
    ensures LiveCovered(y)
  {
    forall q | y.consumer.mark < q < FirstUnsent(y.sink) && 1 <= q
      ensures WasDropped(y.sink.fates, q)
    {
      RetiredAboveMark(x, q);
    }
  }

  lemma ConnectKeeps(x: System, cap: nat)
    requires Inv(x) && Enabled(x, Connect)
    ensures Inv(Step(x, Connect, cap))
  {
    hide LogComplete, AcksSafe, WiresOk, LiveCovered;
    var y := Step(x, Connect, cap);
    RequeueValid(x.sink);
    assert FirstUnsent(y.sink) == |x.sink.fates| + 1;
    ConnectWires(x, y);
    LogKept(x, y);
    ConnectLive(x, y);
    AcksKept(x, y);
  }

  lemma IdleKeeps(x: System, cap: nat)
    requires Inv(x) && Enabled(x, SendLoop) && x.sink.unsent == []
    ensures Inv(Step(x, SendLoop, cap))
  {
    var y := Step(x, SendLoop, cap);
    assert Queue(y.sink) == Queue(x.sink);
    WiresKept(x, y);
    LogKept(x, y);
    forall q | y.consumer.mark < q < FirstUnsent(y.sink) && 1 <= q
      ensures q in y.wires[|y.wires| - 1] || WasDropped(y.sink.fates, q)
    {
      assert q in x.wires[|x.wires| - 1] || WasDropped(x.sink.fates, q);
    }
  }

  lemma WireExtended(x: System, y: System, w: seq<int>, n: int)
    requires WireCovered(x, w) && y.consumer == x.consumer && y.sink.fates == x.sink.fates
    requires forall q :: x.consumer.mark < q < n && 1 <= q ==> q in w || WasDropped(x.sink.fates, q)
    ensures WireCovered(y, w + [n])
  {
    var v := w + [n];
    forall i, q | 0 <= i < |v| && y.consumer.mark < q < v[i] && 1 <= q
      ensures q in v[..i] || WasDropped(y.sink.fates, q)
    {
      if i < |w| {
        assert v[..i] == w[..i];
      } else {
        assert v[..i] == w;
      }
    }
  }

  lemma WriteKeeps(x: System, cap: nat)
    requires Inv(x) && Enabled(x, SendLoop) && x.sink.unsent != []
    ensures Inv(Step(x, SendLoop, cap))
  {
    var y := Step(x, SendLoop, cap);
    WriteValid(x.sink);
    UnsentNumber(x.sink);
    var live := |x.wires| - 1;
    var w, n := x.wires[live], FirstUnsent(x.sink);
    LogKept(x, y);
    forall i | 0 <= i < |y.wires| ensures WireCovered(y, y.wires[i]) && WireBounded(y, y.wires[i]) {
      WireKept(x, y, x.wires[i]);
      if i == live {
        WireExtended(x, y, w, n);
      }
    }
    assert y.wires[live] == w + [n];
    forall q | y.consumer.mark < q < FirstUnsent(y.sink) && 1 <= q
      ensures q in y.wires[live] || WasDropped(y.sink.fates, q)
    {
      assert q < n ==> q in w || WasDropped(x.sink.fates, q);
    }
  }

  /** An ack at or below a number's own retires nothing above it. */
  lemma UnackedNumbers(s: Sink.State, ack: int)
    requires Sink.Valid(s)
    ensures Covered(s, ack) > 0 ==> |s.fates| + Covered(s, ack) <= ack
    ensures |s.fates| + |s.unacked| + |s.unsent| + 1 == s.nextSeq
  {
  }

  lemma AckKeeps(x: System, ack: int, cap: nat)
    requires Inv(x) && Enabled(x, AckReceived(ack))
    ensures Inv(Step(x, AckReceived(ack), cap))
  {
    hide AfterAck, Valid, Cost, CountDropped, Ascending, WireCovered, WireBounded;
    var y := Step(x, AckReceived(ack), cap);
    UnackedNumbers(x.sink, ack);
    AckExact(x.sink, ack);
    WiresKept(x, y);
    LogKept(x, y);
    forall q | WasAcked(y.sink.fates, q) ensures q <= y.consumer.mark {
      if q <= |x.sink.fates| {
        assert WasAcked(x.sink.fates, q);
      }
    }
    forall q | y.consumer.mark < q < FirstUnsent(y.sink) && 1 <= q
      ensures q in y.wires[|y.wires| - 1] || WasDropped(y.sink.fates, q)
    {
      assert q in x.wires[|x.wires| - 1] || WasDropped(x.sink.fates, q);
    }
  }

  lemma DeliverKeepsLog(x: System, i: nat, cap: nat)
    requires Inv(x) && Enabled(x, Deliver(i))
    ensures LogComplete(Step(x, Deliver(i), cap))
  {
    var y := Step(x, Deliver(i), cap);
    var w, h := x.wires[i], x.wires[i][0];
    assert WireCovered(x, w) && WireBounded(x, w);
    if h > x.consumer.mark {
      assert y.consumer.log == x.consumer.log + [h];
      assert forall j :: 0 <= j < |x.consumer.log| ==> x.consumer.log[j] in x.consumer.log;
      assert w[..0] == [];
      forall q | 1 <= q <= h ensures q in y.consumer.log || WasDropped(y.sink.fates, q) {
        if q <= x.consumer.mark {
          assert q in x.consumer.log || WasDropped(x.sink.fates, q);
        } else if q < h {
          assert q in w[..0] || WasDropped(x.sink.fates, q);
        } else {
          assert y.consumer.log[|x.consumer.log|] == h;
        }
      }
    }
  }

  lemma WireHeadTaken(x: System, y: System, w: seq<int>)
    requires w != [] && WireCovered(x, w) && y.sink == x.sink
    requires y.consumer.mark >= x.consumer.mark && y.consumer.mark >= w[0]
    ensures WireCovered(y, w[1..])
  {
    var v := w[1..];
    forall i, q | 0 <= i < |v| && y.consumer.mark < q < v[i] && 1 <= q
      ensures q in v[..i] || WasDropped(y.sink.fates, q)
    {
      assert w[i + 1] == v[i];
      assert q in w[..i + 1] || WasDropped(x.sink.fates, q);
      assert w[..i + 1] == [w[0]] + v[..i];
    }
  }

  lemma DeliverKeeps(x: System, i: nat, cap: nat)
    requires Inv(x) && Enabled(x, Deliver(i))
    ensures Inv(Step(x, Deliver(i), cap))
  {
    var y := Step(x, Deliver(i), cap);
    var w := x.wires[i];
    DeliverKeepsLog(x, i, cap);
    forall k | 0 <= k < |y.wires| ensures WireCovered(y, y.wires[k]) && WireBounded(y, y.wires[k]) {
      WireKept(x, y, x.wires[k]);
      if k == i {
        WireHeadTaken(x, y, w);
      }
    }
    assert w == [w[0]] + w[1..];
    if x.connected {
      forall q | y.consumer.mark < q < FirstUnsent(y.sink) && 1 <= q
        ensures q in y.wires[|y.wires| - 1] || WasDropped(y.sink.fates, q)
      {
        assert q in x.wires[|x.wires| - 1] || WasDropped(x.sink.fates, q);
      }
    }
  }

  lemma WireCut(x: System, w: seq<int>, kept: nat)
    requires WireCovered(x, w) && WireBounded(x, w) && kept <= |w|
    ensures WireCovered(x, w[..kept]) && WireBounded(x, w[..kept])
  {
    var v := w[..kept];
    forall j, q | 0 <= j < |v| && x.consumer.mark < q < v[j] && 1 <= q
      ensures q in v[..j] || WasDropped(x.sink.fates, q)
    {
      assert v[..j] == w[..j];
      assert q in w[..j] || WasDropped(x.sink.fates, q);
    }
  }

  lemma LoseKeeps(x: System, i: nat, kept: nat, cap: nat)
    requires Inv(x) && Enabled(x, Lose(i, kept))
    ensures Inv(Step(x, Lose(i, kept), cap))
  {
    var y := Step(x, Lose(i, kept), cap);
    forall k | 0 <= k < |y.wires| ensures WireCovered(y, y.wires[k]) && WireBounded(y, y.wires[k]) {
      WireCut(x, x.wires[k], if k == i then kept else |x.wires[k]|);
      assert x.wires[k][..|x.wires[k]|] == x.wires[k];
      WireKept(x, y, y.wires[k]);
    }
    LogKept(x, y);
    if x.connected {
      assert y.wires[|y.wires| - 1] == x.wires[|x.wires| - 1];
    }
  }

  lemma OtherKeeps(x: System, e: Event, cap: nat)
    requires Inv(x) && Enabled(x, e) && (e.Wake? || e.Die?)
    ensures Inv(Step(x, e, cap))
  {
    var y := Step(x, e, cap);
    WiresKept(x, y);
    LogKept(x, y);
  }

  /** Every step of every party keeps the invariant. */
  lemma StepKeeps(x: System, e: Event, cap: nat)
    requires Inv(x) && Enabled(x, e)
    ensures Inv(Step(x, e, cap))
  {
    match e
    case DoSend(line) => SendKeeps(x, line, cap);
    case Connect => ConnectKeeps(x, cap);
    case SendLoop => if x.sink.unsent == [] { IdleKeeps(x, cap); } else { WriteKeeps(x, cap); }
    case AckReceived(ack) => AckKeeps(x, ack, cap);
    case Deliver(i) => DeliverKeeps(x, i, cap);
    case Lose(i, kept) => LoseKeeps(x, i, kept, cap);
    case Wake => OtherKeeps(x, e, cap);
    case Die => OtherKeeps(x, e, cap);
  }

  // --- whole runs ------------------------------------------------------------------

  /** An event that is not enabled changes nothing. (Every state of a run is well formed,
      by RunFromInv.) */
  ghost function Exec(x: System, e: Event, cap: nat): System {
    if WellFormed(x) && Enabled(x, e) then Step(x, e, cap) else x
  }

  ghost function RunFrom(x: System, es: seq<Event>, cap: nat): System {
    if es == [] then x else Exec(RunFrom(x, es[..|es| - 1], cap), es[|es| - 1], cap)
  }

  ghost function Run(es: seq<Event>, cap: nat): System {
    RunFrom(START, es, cap)
  }

  /** The invariant holds after any events whatsoever, whatever the cap. */
  lemma {:induction false} RunFromInv(x: System, es: seq<Event>, cap: nat)
    requires Inv(x)
    ensures Inv(RunFrom(x, es, cap))
  {
    if es != [] {
      var y, e := RunFrom(x, es[..|es| - 1], cap), es[|es| - 1];
      RunFromInv(x, es[..|es| - 1], cap);
      if Enabled(y, e) {
        StepKeeps(y, e, cap);
      }
    }
  }

  lemma RunInv(es: seq<Event>, cap: nat)
    ensures Inv(Run(es, cap))
  {
    RunFromInv(START, es, cap);
  }

  predicate Buffered(s: Sink.State, q: int) {
    exists i :: 0 <= i < |Queue(s)| && Queue(s)[i].seqNo == q
  }

  /** Over every run: the consumer logs each number at most once and in order; it never
      passes a number that was neither logged nor evicted; and every number ever sent is
      logged, evicted, or still buffered, so once both deques are empty nothing is lost. */
  lemma AtLeastOnce(es: seq<Event>, cap: nat)
    ensures var x := Run(es, cap);
            && Ascending(x.consumer.log)
            && (forall q :: 1 <= q <= x.consumer.mark ==> q in x.consumer.log || WasDropped(x.sink.fates, q))
            && (forall q :: 1 <= q < x.sink.nextSeq
                  ==> q in x.consumer.log || WasDropped(x.sink.fates, q) || Buffered(x.sink, q))
            && (x.sink.unsent == [] && x.sink.unacked == [] ==>
                  forall q :: 1 <= q < x.sink.nextSeq ==> q in x.consumer.log || WasDropped(x.sink.fates, q))
  {
    var x := Run(es, cap);
    RunInv(es, cap);
    forall q | 1 <= q < x.sink.nextSeq
      ensures q in x.consumer.log || WasDropped(x.sink.fates, q) || Buffered(x.sink, q)
    {
      if q > |x.sink.fates| {
        assert Queue(x.sink)[q - |x.sink.fates| - 1].seqNo == q;
      } else if q > x.consumer.mark {
        RetiredAboveMark(x, q);
      } else {
        assert q in x.consumer.log || WasDropped(x.sink.fates, q);
      }
    }
  }

  /** The numbers that left the buffer with fate `f`. */
  function NumbersOf(fates: seq<Fate>, f: Fate): set<int> {
    set q: int | 1 <= q <= |fates| && HadFate(fates, q, f)
  }

  lemma {:induction false} NumbersSnoc(front: seq<Fate>, f: Fate, g: Fate)
    ensures |NumbersOf(front + [f], g)| == |NumbersOf(front, g)| + if f == g then 1 else 0
  {
    var n := |front| + 1;
    assert forall q :: 1 <= q <= |front| ==> HadFate(front + [f], q, g) == HadFate(front, q, g);
    assert n !in NumbersOf(front, g);
    if f == g {
      assert HadFate(front + [f], n, g);
      assert NumbersOf(front + [f], g) == NumbersOf(front, g) + {n};
    } else {
      assert NumbersOf(front + [f], g) == NumbersOf(front, g);
    }
  }

  lemma {:induction false} FatesCounted(fates: seq<Fate>)
    ensures |NumbersOf(fates, Dropped)| == CountDropped(fates)
    ensures |NumbersOf(fates, Acked)| + |NumbersOf(fates, Dropped)| == |fates|
  {
    if fates == [] {
      assert NumbersOf(fates, Dropped) == {} && NumbersOf(fates, Acked) == {};
    } else {
      hide NumbersOf;
      var front, f := fates[..|fates| - 1], fates[|fates| - 1];
      FatesCounted(front);
      assert fates == front + [f];
      NumbersSnoc(front, f, Dropped);
      NumbersSnoc(front, f, Acked);
    }
  }

  /** Every number issued is exactly one of acknowledged, evicted and buffered, and nothing else is. */
  ghost predicate EachOnce(s: Sink.State) {
    && (forall q :: 1 <= q < s.nextSeq ==> WasAcked(s.fates, q) || WasDropped(s.fates, q) || Buffered(s, q))
    && (forall q :: WasAcked(s.fates, q) || WasDropped(s.fates, q) || Buffered(s, q) ==> 1 <= q < s.nextSeq)
    && (forall q :: !(WasAcked(s.fates, q) && WasDropped(s.fates, q)))
    && (forall q :: !(WasAcked(s.fates, q) && Buffered(s, q)))
    && (forall q :: !(WasDropped(s.fates, q) && Buffered(s, q)))
  }

  lemma ValidEachOnce(s: Sink.State)
    requires Sink.Valid(s)
    ensures EachOnce(s)
  {
    forall q | |s.fates| < q < s.nextSeq ensures Buffered(s, q) {
      assert Queue(s)[q - |s.fates| - 1].seqNo == q;
    }
  }

  /** Over every run the sink conserves what it was given: the buffer is a contiguous run ending
      at the last number issued, every number issued is exactly one of acknowledged, evicted and
      buffered, and the counters are the sizes of these sets. */
  lemma Conservation(es: seq<Event>, cap: nat)
    ensures var s := Run(es, cap).sink;
            && (forall i :: 0 <= i < |Queue(s)| ==> Queue(s)[i].seqNo == s.nextSeq - |Queue(s)| + i)
            && EachOnce(s)
            && s.dropped == CountDropped(s.fates) == |NumbersOf(s.fates, Dropped)|
            && s.nextSeq - 1 == |NumbersOf(s.fates, Acked)| + s.dropped + |s.unacked| + |s.unsent|
            && s.bufferedBytes == HeldBytes(Queue(s))
  {
    RunInv(es, cap);
    ValidEachOnce(Run(es, cap).sink);
    CostIsHeld(Queue(Run(es, cap).sink));
    FatesCounted(Run(es, cap).sink.fates);
  }

  /** No lost wake-up: whenever a connected sink has something to send, its send loop can move. */
  lemma SenderNeverStuck(es: seq<Event>, cap: nat)
    ensures var x := Run(es, cap);
            x.connected && x.sink.unsent != [] ==> Enabled(x, SendLoop) || Enabled(x, Wake)
  {
    var x := Run(es, cap);
    RunInv(es, cap);
    assert NoLostWakeup(x);
  }

  predicate Wakes(e: Event) {
    e.DoSend? || e.Connect?
  }

  lemma IdleFirst(x: System, cap: nat)
    requires Inv(x) && x.connected && !x.waiting && x.sink.unsent == []
    ensures var y := Exec(x, SendLoop, cap); Inv(y) && !y.sink.hasData && !Enabled(y, Wake)
  {
    hide LogComplete, AcksSafe, WiresOk;
    IdleKeeps(x, cap);
  }

  lemma StaysAsleep(x: System, e: Event, cap: nat)
    requires Inv(x) && !x.sink.hasData && !Wakes(e)
    ensures var y := Exec(x, e, cap); Inv(y) && !y.sink.hasData && !Enabled(y, Wake)
  {
    hide LogComplete, AcksSafe, WiresOk, NoLostWakeup, Evict, AfterAck;
    if Enabled(x, e) {
      StepKeeps(x, e, cap);
      if e.AckReceived? {
        AckExact(x.sink, e.ack);
      }
    }
  }

  /** A send loop that finds nothing to send sleeps, whatever else happens, until the next send or
      connection: it does not spin. */
  lemma {:induction false} IdleSleeps(x: System, es: seq<Event>, cap: nat)
    requires Inv(x) && x.connected && !x.waiting && x.sink.unsent == []
    requires forall i :: 0 <= i < |es| ==> !Wakes(es[i])
    ensures var y := RunFrom(Exec(x, SendLoop, cap), es, cap); Inv(y) && !y.sink.hasData && !Enabled(y, Wake)
  {
    hide Inv, Enabled, Step;
    if es == [] {
      IdleFirst(x, cap);
    } else {
      var front := es[..|es| - 1];
      IdleSleeps(x, front, cap);
      StaysAsleep(RunFrom(Exec(x, SendLoop, cap), front, cap), es[|es| - 1], cap);
    }
  }

  // --- nothing is lost below the cap -----------------------------------------------

  function SentCost(es: seq<Event>): nat {
    if es == [] then 0
    else SentCost(es[..|es| - 1]) + match es[|es| - 1] {
           case DoSend(line) => |line| + ENTRY_OVERHEAD_BYTES
           case _ => 0 }
  }

  lemma {:induction false} CostSuffix(q: seq<Entry>, k: nat)
    requires k <= |q|
    ensures Cost(q[k..]) <= Cost(q)
  {
    CostSplit(q, k);
  }

  lemma NoEvictionBelowCap(x: System, e: Event, cap: nat)
    requires Inv(x)
    requires Enabled(x, e)
    requires e.DoSend? ==> x.sink.bufferedBytes + |e.line| + ENTRY_OVERHEAD_BYTES <= cap
    ensures Step(x, e, cap).sink.dropped == x.sink.dropped
    ensures Step(x, e, cap).sink.bufferedBytes
            <= x.sink.bufferedBytes + if e.DoSend? then |e.line| + ENTRY_OVERHEAD_BYTES else 0
  {
    match e
    case DoSend(line) =>
      SendExact(x.sink, line, cap);
      PushValid(x.sink, line);
      var offered := Queue(x.sink) + [Entry(x.sink.nextSeq, line)];
      assert offered[0..] == offered;
      CostIsHeld(offered);
      assert HeldBytes(offered) <= cap;
    case AckReceived(ack) =>
      AckExact(x.sink, ack);
      var k := Covered(x.sink, ack);
      assert Queue(AfterAck(x.sink, ack)) == Queue(x.sink)[k..];
      CostSuffix(Queue(x.sink), k);
    case _ =>
  }

  lemma CapStep(x: System, e: Event, cap: nat)
    requires Inv(x) && x.sink.bufferedBytes <= cap
    ensures Exec(x, e, cap).sink.bufferedBytes <= cap
  {
    hide LogComplete, AcksSafe, WiresOk, LiveCovered, Evict, AfterAck;
    if Enabled(x, e) {
      if e.DoSend? {
        SendExact(x.sink, e.line, cap);
      } else {
        NoEvictionBelowCap(x, e, cap);
      }
    }
  }

  /** Over every run the running byte count stays within the cap. */
  lemma {:induction false} CountWithinCap(es: seq<Event>, cap: nat)
    ensures Run(es, cap).sink.bufferedBytes <= cap
  {
    hide Inv, Enabled, Step;
    if es == [] {
      assert START.sink.bufferedBytes == 0;
    } else {
      var front, e := es[..|es| - 1], es[|es| - 1];
      CountWithinCap(front, cap);
      RunInv(front, cap);
      CapStep(Run(front, cap), e, cap);
    }
  }

  /** Over every run the bytes of the buffered lines, and 120 for each, never exceed the cap. */
  lemma CapHolds(es: seq<Event>, cap: nat)
    ensures var q := Queue(Run(es, cap).sink);
            |Joined(q)| + 120 * |q| <= cap
  {
    CountWithinCap(es, cap);
    RunInv(es, cap);
    CostIsHeld(Queue(Run(es, cap).sink));
  }

  // --- what is sent under a number is what was handed in -----------------------------

  /** The lines handed to `send`, in order. */
  function SentLines(es: seq<Event>): seq<seq<bv8>> {
    if es == [] then []
    else SentLines(es[..|es| - 1]) + match es[|es| - 1] {
           case DoSend(line) => [line]
           case _ => [] }
  }

  /** Every buffered entry holds the line its number stands for. */
  ghost predicate Carries(s: Sink.State, lines: seq<seq<bv8>>) {
    && s.nextSeq == |lines| + 1
    && forall i :: 0 <= i < |Queue(s)| ==>
         1 <= Queue(s)[i].seqNo <= |lines| && Queue(s)[i].line == lines[Queue(s)[i].seqNo - 1]
  }

  lemma CarriesSuffix(s: Sink.State, r: Sink.State, lines: seq<seq<bv8>>, k: nat)
    requires Carries(s, lines) && k <= |Queue(s)| && Queue(r) == Queue(s)[k..] && r.nextSeq == s.nextSeq
    ensures Carries(r, lines)
  {
  }

  lemma SendCarries(s: Sink.State, line: seq<bv8>, cap: int, r: Sink.State, k: nat, lines: seq<seq<bv8>>)
    requires Carries(s, lines) && Sent(s, line, cap, r, k)
    ensures Carries(r, lines + [line])
  {
    hide HeldBytes;
    var offered := Queue(s) + [Entry(s.nextSeq, line)];
    assert k <= |offered|;
    assert forall i :: 0 <= i < |Queue(r)| ==> Queue(r)[i] == offered[k + i];
  }

  lemma StepCarries(x: System, e: Event, cap: nat, lines: seq<seq<bv8>>)
    requires Inv(x) && Carries(x.sink, lines)
    ensures Carries(Exec(x, e, cap).sink, lines + match e { case DoSend(line) => [line] case _ => [] })
  {
    hide LogComplete, AcksSafe, WiresOk, NoLostWakeup, Evict, AfterAck, Sent, Carries;
    assert lines + [] == lines;
    var y := Exec(x, e, cap);
    assert WellFormed(x);
    if e.DoSend? {
      SendExact(x.sink, e.line, cap);
      SendCarries(x.sink, e.line, cap, y.sink, SendEvictions(x.sink, e.line, cap), lines);
    } else if Enabled(x, e) {
      if e.AckReceived? {
        AckExact(x.sink, e.ack);
        assert y.sink == AfterAck(x.sink, e.ack);
        assert Queue(y.sink) == Queue(x.sink)[Covered(x.sink, e.ack)..];
        CarriesSuffix(x.sink, y.sink, lines, Covered(x.sink, e.ack));
      } else {
        assert Queue(y.sink) == Queue(x.sink)[0..];
        CarriesSuffix(x.sink, y.sink, lines, 0);
      }
    }
  }

  /** Over every run the entry buffered under a number, and so the line written under it on every
      connection, is the line of that call of `send`. */
  lemma {:induction false} NumbersCarryTheirLines(es: seq<Event>, cap: nat)
    ensures Carries(Run(es, cap).sink, SentLines(es))
  {
    if es != [] {
      hide Inv, Carries, Exec;
      var front := es[..|es| - 1];
      NumbersCarryTheirLines(front, cap);
      RunInv(front, cap);
      StepCarries(Run(front, cap), es[|es| - 1], cap, SentLines(front));
    }
  }

  lemma {:induction false} BelowCap(es: seq<Event>, cap: nat)
    requires SentCost(es) <= cap
    ensures Run(es, cap).sink.dropped == 0 && Run(es, cap).sink.bufferedBytes <= SentCost(es)
  {
    if es != [] {
      var front := es[..|es| - 1];
      BelowCap(front, cap);
      RunInv(front, cap);
      var x := Run(front, cap);
      if Enabled(x, es[|es| - 1]) {
        NoEvictionBelowCap(x, es[|es| - 1], cap);
      }
    }
  }

  lemma {:induction false} DroppedCounted(fates: seq<Fate>, q: int)
    requires WasDropped(fates, q)
    ensures CountDropped(fates) > 0
  {
    if q < |fates| {
      DroppedCounted(fates[..|fates| - 1], q);
    }
  }

  lemma {:induction false} FullLogAt(log: seq<int>, m: nat, i: nat)
    requires Ascending(log) && i < |log|
    requires forall q :: q in log ==> 1 <= q <= m
    requires forall q :: 1 <= q <= m ==> q in log
    ensures log[i] == i + 1
    decreases i
  {
    assert log[i] in log;
    if i > 0 {
      FullLogAt(log, m, i - 1);
    }
    assert i + 1 in log;
    var j :| 0 <= j < |log| && log[j] == i + 1;
    assert j >= i;
  }

  lemma {:induction false} FullLog(log: seq<int>, m: nat)
    requires Ascending(log)
    requires forall q :: q in log ==> 1 <= q <= m
    requires forall q :: 1 <= q <= m ==> q in log
    ensures |log| == m && forall i :: 0 <= i < |log| ==> log[i] == i + 1
  {
    forall i | 0 <= i < |log| ensures log[i] == i + 1 {
      FullLogAt(log, m, i);
    }
    if m > 0 {
      assert m in log;
    }
    if log != [] {
      assert log[|log| - 1] in log;
    }
  }

  /** If everything sent in a run fits the cap together, the run evicts nothing and the
      consumer's log is exactly 1, 2, ..., mark; with both deques empty it runs to the last
      number sent. */
  lemma {:induction false} ExactlyOnceBelowCap(es: seq<Event>, cap: nat)
    requires SentCost(es) <= cap
    ensures var x := Run(es, cap);
            && x.sink.dropped == 0
            && x.sink.bufferedBytes <= SentCost(es)
            && |x.consumer.log| == (if x.consumer.mark < 0 then 0 else x.consumer.mark)
            && (forall i :: 0 <= i < |x.consumer.log| ==> x.consumer.log[i] == i + 1)
            && (x.sink.unsent == [] && x.sink.unacked == [] ==> |x.consumer.log| == x.sink.nextSeq - 1)
  {
    hide Run, LiveCovered, WiresOk, AcksSafe;
    BelowCap(es, cap);
    RunInv(es, cap);
    AtLeastOnce(es, cap);
    var x := Run(es, cap);
    forall q ensures !WasDropped(x.sink.fates, q) {
      if WasDropped(x.sink.fates, q) {
        DroppedCounted(x.sink.fates, q);
      }
    }
    forall q | 1 <= q <= x.consumer.mark ensures q in x.consumer.log {
      assert q in x.consumer.log || WasDropped(x.sink.fates, q);
    }
    FullLog(x.consumer.log, if x.consumer.mark < 0 then 0 else x.consumer.mark);
    if x.sink.unsent == [] && x.sink.unacked == [] && x.sink.nextSeq > 1 {
      var last := x.sink.nextSeq - 1;
      assert last in x.consumer.log || WasDropped(x.sink.fates, last);
    }
  }

  // --- the buffers can always be drained -------------------------------------------

  function Repeat(e: Event, n: nat): (r: seq<Event>)
    ensures |r| == n && forall i :: 0 <= i < n ==> r[i] == e
  {
    seq(n, _ => e)
  }

  lemma {:induction false} RunFromConcat(x: System, a: seq<Event>, b: seq<Event>, cap: nat)
    ensures RunFrom(x, a + b, cap) == RunFrom(RunFrom(x, a, cap), b, cap)
    decreases |b|
  {
    if b == [] {
      assert a + b == a;
    } else {
      RunFromConcat(x, a, b[..|b| - 1], cap);
      assert (a + b)[..|a + b| - 1] == a + b[..|b| - 1];
    }
  }

  lemma RunOne(x: System, e: Event, cap: nat)
    ensures RunFrom(x, [e], cap) == Exec(x, e, cap)
  {
    assert [e][..0] == [];
    assert RunFrom(x, [], cap) == x;
  }

  lemma {:induction false} RunRepeat(x: System, e: Event, n: nat, cap: nat)
    ensures RunFrom(x, Repeat(e, n + 1), cap) == Exec(RunFrom(x, Repeat(e, n), cap), e, cap)
  {
    assert Repeat(e, n + 1)[..n] == Repeat(e, n);
  }

  /** `y` is `x` after its send loop wrote `n` entries on a fresh connection. */
  ghost predicate Written(x: System, y: System, n: nat) {
    && n <= |x.sink.unsent|
    && y.connected && !y.waiting
    && |y.wires| == |x.wires| > 0
    && |y.wires[|y.wires| - 1]| == n
    && (n > 0 ==> y.wires[|y.wires| - 1][n - 1] == FirstUnsent(x.sink) + n - 1)
    && y.sink == x.sink.(unsent := x.sink.unsent[n..], unacked := x.sink.unsent[..n])
  }

  lemma WriteOnce(x: System, y: System, n: nat, cap: nat)
    requires Inv(x) && Inv(y) && Written(x, y, n) && n < |x.sink.unsent|
    ensures Written(x, Exec(y, SendLoop, cap), n + 1)
  {
    UnsentNumber(y.sink);
    var z := Exec(y, SendLoop, cap);
    var live := |y.wires| - 1;
    assert z.wires[live] == y.wires[live] + [y.sink.unsent[0].seqNo];
    assert x.sink.unsent[n..][1..] == x.sink.unsent[n + 1..];
    assert x.sink.unsent[..n] + [x.sink.unsent[n]] == x.sink.unsent[..n + 1];
  }

  lemma {:induction false} WriteAll(x: System, n: nat, cap: nat)
    requires Inv(x) && x.connected && x.wires != [] && !x.waiting && x.sink.unacked == []
    requires n <= |x.sink.unsent| && x.wires[|x.wires| - 1] == []
    ensures Written(x, RunFrom(x, Repeat(SendLoop, n), cap), n)
    decreases n
  {
    hide Inv, Repeat, Exec;
    if n == 0 {
      assert x.sink.unsent[0..] == x.sink.unsent;
      assert RunFrom(x, [], cap) == x && Repeat(SendLoop, 0) == [];
    } else {
      hide RunFrom;
      WriteAll(x, n - 1, cap);
      RunFromInv(x, Repeat(SendLoop, n - 1), cap);
      RunRepeat(x, SendLoop, n - 1, cap);
      WriteOnce(x, RunFrom(x, Repeat(SendLoop, n - 1), cap), n - 1, cap);
    }
  }

  /** `y` is `x` after the `n` oldest lines of wire `i` arrived. */
  ghost predicate Delivered(x: System, y: System, i: nat, n: nat) {
    && |y.wires| == |x.wires| && i < |x.wires| && n <= |x.wires[i]|
    && y.sink == x.sink && y.connected == x.connected
    && y.wires[i] == x.wires[i][n..]
    && (n > 0 ==> y.consumer.mark >= x.wires[i][n - 1])
  }

  lemma DeliverOnce(x: System, y: System, i: nat, n: nat, cap: nat)
    requires Inv(x) && Inv(y) && Delivered(x, y, i, n) && n < |x.wires[i]|
    ensures Delivered(x, Exec(y, Deliver(i), cap), i, n + 1)
  {
    assert x.wires[i][n..][1..] == x.wires[i][n + 1..];
  }

  lemma {:induction false} DeliverAll(x: System, i: nat, n: nat, cap: nat)
    requires Inv(x) && i < |x.wires| && n <= |x.wires[i]|
    ensures Delivered(x, RunFrom(x, Repeat(Deliver(i), n), cap), i, n)
    decreases n
  {
    if n == 0 {
      assert x.wires[i][0..] == x.wires[i];
    } else {
      DeliverAll(x, i, n - 1, cap);
      RunFromInv(x, Repeat(Deliver(i), n - 1), cap);
      RunRepeat(x, Deliver(i), n - 1, cap);
      DeliverOnce(x, RunFrom(x, Repeat(Deliver(i), n - 1), cap), i, n - 1, cap);
    }
  }

  ghost function Reopening(x: System): seq<Event> {
    (if x.connected then [Die] else []) + [Connect]
  }

  /** Reconnect, resend everything buffered, let it arrive, and acknowledge it. */
  ghost function DrainPlan(x: System): seq<Event> {
    var n, mark := |Queue(x.sink)|, x.sink.nextSeq - 1;
    Reopening(x) + Repeat(SendLoop, n) + Repeat(Deliver(|x.wires|), n) + [AckReceived(mark)]
  }

  lemma PlanInPhases(x: System, cap: nat)
    ensures var n := |Queue(x.sink)|;
            var x2 := RunFrom(RunFrom(x, Reopening(x), cap), Repeat(SendLoop, n), cap);
            var x3 := RunFrom(x2, Repeat(Deliver(|x.wires|), n), cap);
            RunFrom(x, DrainPlan(x), cap) == Exec(x3, AckReceived(x.sink.nextSeq - 1), cap)
  {
    hide Exec, Queue;
    var n, ack := |Queue(x.sink)|, AckReceived(x.sink.nextSeq - 1);
    var a, b, c := Reopening(x), Repeat(SendLoop, n), Repeat(Deliver(|x.wires|), n);
    RunFromConcat(x, a, b, cap);
    RunFromConcat(x, a + b, c, cap);
    RunFromConcat(x, a + b + c, [ack], cap);
    RunOne(RunFrom(x, a + b + c, cap), ack, cap);
  }

  lemma CloseFirst(x: System, cap: nat)
    requires Inv(x)
    ensures RunFrom(x, if x.connected then [Die] else [], cap) == x.(connected := false, waiting := false)
  {
    if x.connected {
      RunOne(x, Die, cap);
      assert Exec(x, Die, cap) == Step(x, Die, cap);
    }
  }

  lemma ConnectResult(x: System, cap: nat)
    requires Inv(x) && !x.connected
    ensures Exec(x, Connect, cap)
            == x.(sink := AfterRequeue(x.sink), wires := x.wires + [[]], connected := true, waiting := false)
  {
    assert Enabled(x, Connect);
  }

  lemma FreshConnection(x: System, cap: nat)
    requires Inv(x)
    ensures var y := RunFrom(x, Reopening(x), cap);
            && y.connected && !y.waiting && |y.wires| == |x.wires| + 1 && y.wires[|x.wires|] == []
            && y.sink == AfterRequeue(x.sink) && Inv(y)
  {
    var close := if x.connected then [Die] else [];
    RunFromConcat(x, close, [Connect], cap);
    RunFromInv(x, close, cap);
    RunFromInv(x, Reopening(x), cap);
    CloseFirst(x, cap);
    RunOne(RunFrom(x, close, cap), Connect, cap);
    ConnectResult(RunFrom(x, close, cap), cap);
  }

  /** On a fresh connection: write the whole buffer, let it all arrive. */
  lemma ResendAll(x: System, n: nat, cap: nat)
    requires Inv(x) && x.connected && x.wires != [] && !x.waiting
    requires x.sink.unacked == [] && x.wires[|x.wires| - 1] == [] && n == |x.sink.unsent|
    ensures var x2 := RunFrom(x, Repeat(SendLoop, n), cap);
            var x3 := RunFrom(x2, Repeat(Deliver(|x.wires| - 1), n), cap);
            && Inv(x3) && x3.connected && x3.sink.unsent == [] && x3.sink.nextSeq == x.sink.nextSeq
            && (x3.sink.unacked == [] || x3.consumer.mark >= x3.sink.nextSeq - 1)
  {
    hide Inv, RunFrom, Repeat;
    WriteAll(x, n, cap);
    RunFromInv(x, Repeat(SendLoop, n), cap);
    var x2 := RunFrom(x, Repeat(SendLoop, n), cap);
    DeliverAll(x2, |x.wires| - 1, n, cap);
    RunFromInv(x2, Repeat(Deliver(|x.wires| - 1), n), cap);
  }

  lemma AckEverything(x: System, cap: nat)
    requires Inv(x) && x.sink.unsent == [] && x.connected
    requires x.sink.unacked == [] || x.consumer.mark >= x.sink.nextSeq - 1
    ensures var y := Exec(x, AckReceived(x.sink.nextSeq - 1), cap);
            y.sink.unsent == [] && y.sink.unacked == [] && y.sink.nextSeq == x.sink.nextSeq
  {
    var ack := x.sink.nextSeq - 1;
    if x.consumer.mark >= ack {
      assert Exec(x, AckReceived(ack), cap).sink == AfterAck(x.sink, ack);
      AckExact(x.sink, ack);
    }
  }

  lemma DrainEmpties(x: System, cap: nat)
    requires Inv(x)
    ensures var y := RunFrom(x, DrainPlan(x), cap);
            y.sink.unsent == [] && y.sink.unacked == [] && y.sink.nextSeq == x.sink.nextSeq
  {
    hide Inv, Repeat, Exec, RunFrom, DrainPlan;
    var n := |Queue(x.sink)|;
    PlanInPhases(x, cap);
    FreshConnection(x, cap);
    var x1 := RunFrom(x, Reopening(x), cap);
    ResendAll(x1, n, cap);
    var x2 := RunFrom(x1, Repeat(SendLoop, n), cap);
    AckEverything(RunFrom(x2, Repeat(Deliver(|x.wires|), n), cap), cap);
  }

  /** From every reachable state a run without further sends empties both deques, after
      which every number ever sent is in the log or was evicted at the cap. */
  lemma CanAlwaysDrain(es: seq<Event>, cap: nat)
    ensures var plan := DrainPlan(Run(es, cap));
            var y := Run(es + plan, cap);
            && (forall e :: e in plan ==> !e.DoSend?)
            && y.sink.unsent == [] && y.sink.unacked == []
            && y.sink.nextSeq == Run(es, cap).sink.nextSeq
            && forall q :: 1 <= q < y.sink.nextSeq ==> q in y.consumer.log || WasDropped(y.sink.fates, q)
  {
    hide Inv, RunFrom;
    var x := Run(es, cap);
    RunInv(es, cap);
    DrainEmpties(x, cap);
    RunFromConcat(START, es, DrainPlan(x), cap);
    AtLeastOnce(es + DrainPlan(x), cap);
  }
}
