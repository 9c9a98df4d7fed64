/** The TCP sink: two queues, byte-capped eviction, cumulative acks, and the requeue on reconnect. */
module Sink {

  // Estimated object overhead charged to the cap for every buffered entry.
  const ENTRY_OVERHEAD_BYTES := 120

  datatype Entry = Entry(seqNo: int, line: seq<bv8>)

  /** How an entry left the buffer: acknowledged by the consumer, or evicted at the cap. */
  datatype Fate = Acked | Dropped

  /** The sink's fields. `fates` is a history variable: fates[i] says how the
      entry numbered i + 1 left the buffer. */
  datatype State = State(
    unsent: seq<Entry>,
    unacked: seq<Entry>,
    bufferedBytes: int,
    nextSeq: int,
    dropped: int,
    hasData: bool,
    fates: seq<Fate>)

  const INITIAL := State([], [], 0, 1, 0, false, [])

  function EntryCost(e: Entry): nat {
    |e.line| + ENTRY_OVERHEAD_BYTES
  }

  function Cost(q: seq<Entry>): nat {
    if q == [] then 0 else EntryCost(q[0]) + Cost(q[1..])
  }

  /** The buffered lines, end to end. */
  function Joined(q: seq<Entry>): seq<bv8> {
    if q == [] then [] else q[0].line + Joined(q[1..])
  }

  /** What the cap is compared with: every buffered byte, and 120 for each entry. */
  function HeldBytes(q: seq<Entry>): nat {
    |Joined(q)| + 120 * |q|
  }

  /** Everything buffered, oldest first. */
  function Queue(s: State): seq<Entry> {
    s.unacked + s.unsent
  }

  function CountDropped(fates: seq<Fate>): nat {
    if fates == [] then 0
    else CountDropped(fates[..|fates| - 1]) + if fates[|fates| - 1] == Dropped then 1 else 0
  }

  predicate HadFate(fates: seq<Fate>, n: int, f: Fate) {
    1 <= n <= |fates| && fates[n - 1] == f
  }

  predicate WasDropped(fates: seq<Fate>, n: int) {
    HadFate(fates, n, Dropped)
  }

  predicate WasAcked(fates: seq<Fate>, n: int) {
    HadFate(fates, n, Acked)
  }

  predicate Contiguous(q: seq<Entry>, first: int) {
    forall i :: 0 <= i < |q| ==> q[i].seqNo == first + i
  }

  /** Shape and conservation: the buffer is one contiguous run ending at nextSeq - 1,
      every earlier number has exactly one fate, and the counters match. */
  ghost predicate Valid(s: State) {
    && Contiguous(Queue(s), |s.fates| + 1)
    && |s.fates| + |Queue(s)| + 1 == s.nextSeq
    && s.bufferedBytes == Cost(Queue(s))
    && s.dropped == CountDropped(s.fates)
  }

  // --- costs ---------------------------------------------------------------

  lemma {:induction false} CostConcat(a: seq<Entry>, b: seq<Entry>)
    ensures Cost(a + b) == Cost(a) + Cost(b)
  {
    if a == [] {
      assert a + b == b;
    } else {
      CostConcat(a[1..], b);
      assert (a + b)[1..] == a[1..] + b;
    }
  }

  lemma CostSplit(q: seq<Entry>, k: nat)
    requires k <= |q|
    ensures Cost(q) == Cost(q[..k]) + Cost(q[k..])
  {
    CostConcat(q[..k], q[k..]);
    assert q == q[..k] + q[k..];
  }

  /** The running byte count is that measure of the buffered lines. */
  lemma {:induction false} CostIsHeld(q: seq<Entry>)
    ensures Cost(q) == HeldBytes(q)
  {
    if q != [] {
      CostIsHeld(q[1..]);
    }
  }

  // --- steps -----------------------------------------------------------------

  function Push(s: State, line: seq<bv8>): State {
    var e := Entry(s.nextSeq, line);
    s.(unsent := s.unsent + [e],
       nextSeq := s.nextSeq + 1,
       bufferedBytes := s.bufferedBytes + EntryCost(e))
  }

  /** One pass of the eviction loop: the oldest unacked entry, else the oldest unsent one. */
  function EvictOne(s: State): State
    requires Queue(s) != []
  {
    var s' := if s.unacked != []
              then s.(unacked := s.unacked[1..])
              else s.(unsent := s.unsent[1..]);
    s'.(bufferedBytes := s.bufferedBytes - EntryCost(Queue(s)[0]),
        dropped := s.dropped + 1,
        fates := s.fates + [Dropped])
  }

  lemma EvictOneValid(s: State)
    requires Valid(s) && Queue(s) != []
    ensures Valid(EvictOne(s))
    ensures Queue(EvictOne(s)) == Queue(s)[1..]
  {
    var r := EvictOne(s);
    assert Queue(r) == Queue(s)[1..];
    assert r.fates[..|r.fates| - 1] == s.fates;
  }

  ghost function Evict(s: State, cap: int): State
    requires Valid(s) && 0 <= cap
    decreases |Queue(s)|
  {
    if s.bufferedBytes <= cap then s
    else EvictOneValid(s); Evict(EvictOne(s), cap)
  }

  lemma PushValid(s: State, line: seq<bv8>)
    requires Valid(s)
    ensures Valid(Push(s, line))
    ensures Queue(Push(s, line)) == Queue(s) + [Entry(s.nextSeq, line)]
  {
    var e := Entry(s.nextSeq, line);
    assert Queue(Push(s, line)) == Queue(s) + [e];
    CostConcat(Queue(s), [e]);
  }

  ghost function AfterSend(s: State, line: seq<bv8>, cap: int): State
    requires Valid(s) && 0 <= cap
  {
    PushValid(s, line);
    Evict(Push(s, line), cap).(hasData := true)
  }

  /** One pass of the send loop with something to send: the head moves to `unacked` before it is written. */
  function AfterWrite(s: State): State
    requires s.unsent != []
  {
    s.(unsent := s.unsent[1..], unacked := s.unacked + [s.unsent[0]])
  }

  /** The send loop with nothing to send: clear the event, then wait on it. */
  function AfterIdle(s: State): State {
    s.(hasData := false)
  }

  /** The requeue on a fresh connection: unacked entries return to the front, in order. */
  function AfterRequeue(s: State): State {
    var q := s.unacked + s.unsent;
    s.(unsent := q, unacked := [], hasData := s.hasData || q != [])
  }

  function AckOne(s: State): State
    requires s.unacked != []
  {
    s.(unacked := s.unacked[1..],
       bufferedBytes := s.bufferedBytes - EntryCost(s.unacked[0]),
       fates := s.fates + [Acked])
  }

  /** The ack loop for one cumulative ack. */
  function AfterAck(s: State, ack: int): State
    decreases |s.unacked|
  {
    if s.unacked != [] && s.unacked[0].seqNo <= ack
    then AfterAck(AckOne(s), ack)
    else s
  }

  // --- what the steps mean -----------------------------------------------------

  /** `k` is the fewest oldest entries of `q` whose removal fits the cap. */
  ghost predicate FewestEvictions(q: seq<Entry>, cap: int, k: nat) {
    && k <= |q|
    && HeldBytes(q[k..]) <= cap
    && forall j :: 0 <= j < k ==> HeldBytes(q[j..]) > cap
  }

  /** The fate `f`, `k` times. */
  function Times(f: Fate, k: nat): (r: seq<Fate>)
    ensures |r| == k && forall i :: 0 <= i < k ==> r[i] == f
  {
    seq(k, _ => f)
  }

  lemma TimesSnoc(before: seq<Fate>, f: Fate, k: nat)
    ensures before + [f] + Times(f, k) == before + Times(f, k + 1)
    ensures before + Times(f, 0) == before
  {
    assert [f] + Times(f, k) == Times(f, k + 1);
    assert before + [f] + Times(f, k) == before + ([f] + Times(f, k));
  }

  /** `r` is `s` with the `k` oldest entries evicted and nothing else changed. */
  ghost predicate Evicted(s: State, r: State, k: nat) {
    && k <= |Queue(s)|
    && Queue(r) == Queue(s)[k..]
    && r.unacked == s.unacked[if k <= |s.unacked| then k else |s.unacked|..]
    && r.fates == s.fates + Times(Dropped, k)
    && r.dropped == s.dropped + k
    && r.nextSeq == s.nextSeq
    && r.hasData == s.hasData
  }

  lemma EvictedNone(s: State)
    ensures Evicted(s, s, 0)
  {
    assert Queue(s)[0..] == Queue(s);
    TimesSnoc(s.fates, Dropped, 0);
  }

  lemma EvictedTwice(s: State, t: State, r: State, k: nat)
    requires s.unacked + s.unsent != [] && t == EvictOne(s) && Evicted(t, r, k)
    ensures Evicted(s, r, k + 1)
  {
    hide Times;
    assert Queue(t) == Queue(s)[1..];
    assert Queue(s)[1..][k..] == Queue(s)[k + 1..];
    TimesSnoc(s.fates, Dropped, k);
  }

  /** How many entries the eviction loop removes. */
  ghost function Evictions(s: State, cap: int): int
    requires Valid(s) && 0 <= cap
  {
    |Evict(s, cap).fates| - |s.fates|
  }

  /** Over the cap the loop goes round once more. */
  lemma EvictAgain(s: State, cap: int)
    requires Valid(s) && 0 <= cap < s.bufferedBytes
    ensures s.unacked + s.unsent != [] && Valid(EvictOne(s)) && Evict(s, cap) == Evict(EvictOne(s), cap)
    ensures Queue(EvictOne(s)) == Queue(s)[1..] && |Queue(EvictOne(s))| < |Queue(s)|
    ensures Evictions(s, cap) == Evictions(EvictOne(s), cap) + 1
  {
    EvictOneValid(s);
  }

  lemma WithinCap(s: State, cap: int)
    requires Valid(s) && 0 <= cap && s.bufferedBytes <= cap
    ensures Evict(s, cap) == s && Evictions(s, cap) == 0
  {
  }

  lemma {:induction false} EvictedPrefix(s: State, cap: int)
    requires Valid(s) && 0 <= cap
    ensures Evictions(s, cap) >= 0
    ensures Valid(Evict(s, cap)) && Evicted(s, Evict(s, cap), Evictions(s, cap))
    ensures Evict(s, cap).bufferedBytes <= cap
    decreases |Queue(s)|
  {
    hide *;
    if s.bufferedBytes <= cap {
      EvictedNone(s);
      WithinCap(s, cap);
    } else {
      EvictAgain(s, cap);
      var t := EvictOne(s);
      EvictedPrefix(t, cap);
      EvictedTwice(s, t, Evict(t, cap), Evictions(t, cap));
    }
  }

  lemma FewestOnce(q: seq<Entry>, cap: int, k: nat)
    requires q != [] && HeldBytes(q) > cap && FewestEvictions(q[1..], cap, k)
    ensures FewestEvictions(q, cap, k + 1)
  {
    hide HeldBytes;
    assert q[1..][k..] == q[k + 1..];
    forall j | 0 <= j < k + 1 ensures HeldBytes(q[j..]) > cap {
      if j == 0 {
        assert q[0..] == q;
      } else {
        assert q[j..] == q[1..][j - 1..];
      }
    }
  }

  /** The eviction loop keeps the longest suffix of the buffer that fits the cap. */
  lemma {:induction false} EvictFewest(s: State, cap: int)
    requires Valid(s) && 0 <= cap
    ensures Evictions(s, cap) >= 0 && FewestEvictions(Queue(s), cap, Evictions(s, cap))
    decreases |Queue(s)|
  {
    hide Evict, Evictions, EvictOne, Contiguous, CountDropped, Cost, HeldBytes;
    CostIsHeld(Queue(s));
    if s.bufferedBytes <= cap {
      WithinCap(s, cap);
      assert Queue(s)[0..] == Queue(s);
    } else {
      EvictAgain(s, cap);
      EvictFewest(EvictOne(s), cap);
      FewestOnce(Queue(s), cap, Evictions(EvictOne(s), cap));
    }
  }

  lemma SetEvent(s: State)
    requires Valid(s)
    ensures var r := s.(hasData := true); Valid(r) && Queue(r) == Queue(s)
  {
    var r := s.(hasData := true);
    assert Queue(r) == Queue(s);
  }

  /** The number of evictions one call of `send` performs. */
  ghost function SendEvictions(s: State, line: seq<bv8>, cap: int): int
    requires Valid(s) && 0 <= cap
  {
    |AfterSend(s, line, cap).fates| - |s.fates|
  }

  /** `r` is `s` after sending `line`: one entry appended, the `k` oldest evicted. */
  ghost predicate Sent(s: State, line: seq<bv8>, cap: int, r: State, k: nat) {
    var offered := Queue(s) + [Entry(s.nextSeq, line)];
    && FewestEvictions(offered, cap, k)
    && Queue(r) == offered[k..]
    && r.unacked == s.unacked[if k <= |s.unacked| then k else |s.unacked|..]
    && r.fates == s.fates + Times(Dropped, k)
    && r.dropped == s.dropped + k
    && r.nextSeq == s.nextSeq + 1
    && r.bufferedBytes <= cap
    && r.hasData
  }

  lemma SentFromEvicted(s: State, line: seq<bv8>, cap: int, p: State, e: State, k: nat)
    requires p == Push(s, line) && Queue(p) == Queue(s) + [Entry(s.nextSeq, line)]
    requires Evicted(p, e, k) && FewestEvictions(Queue(p), cap, k) && e.bufferedBytes <= cap
    ensures Sent(s, line, cap, e.(hasData := true), k)
  {
    assert Queue(e.(hasData := true)) == Queue(e);
  }

  /** Sending appends one entry and then keeps exactly the longest suffix that fits. */
  lemma SendExact(s: State, line: seq<bv8>, cap: int)
    requires Valid(s) && 0 <= cap
    ensures Valid(AfterSend(s, line, cap)) && SendEvictions(s, line, cap) >= 0
    ensures Sent(s, line, cap, AfterSend(s, line, cap), SendEvictions(s, line, cap))
  {
    hide Evict, Push, Sent, Evicted;
    PushValid(s, line);
    var p := Push(s, line);
    EvictedPrefix(p, cap);
    EvictFewest(p, cap);
    var e := Evict(p, cap);
    SetEvent(e);
    SentFromEvicted(s, line, cap, p, e, Evictions(p, cap));
  }

  lemma SentCount(s: State, line: seq<bv8>, cap: int, r: State, k: nat)
    requires Sent(s, line, cap, r, k)
    ensures k == r.dropped - s.dropped
  {
  }

  lemma WriteValid(s: State)
    requires Valid(s) && s.unsent != []
    ensures Valid(AfterWrite(s)) && Queue(AfterWrite(s)) == Queue(s)
  {
    assert Queue(AfterWrite(s)) == Queue(s);
  }

  lemma RequeueValid(s: State)
    requires Valid(s)
    ensures Valid(AfterRequeue(s)) && Queue(AfterRequeue(s)) == Queue(s) == AfterRequeue(s).unsent
    ensures Queue(s) != [] ==> AfterRequeue(s).hasData
  {
    assert Queue(AfterRequeue(s)) == Queue(s);
  }

  /** How many of the unacked entries a cumulative ack covers. */
  function Covered(s: State, ack: int): nat {
    var k := ack - |s.fates|;
    if k < 0 then 0 else if k > |s.unacked| then |s.unacked| else k
  }

  /** `r` is `s` with the `k` oldest written entries acknowledged and the rest as it was. */
  ghost predicate Retired(s: State, r: State, k: nat) {
    && k <= |s.unacked|
    && r.unacked == s.unacked[k..]
    && r.unsent == s.unsent
    && r.fates == s.fates + Times(Acked, k)
    && r.nextSeq == s.nextSeq && r.dropped == s.dropped && r.hasData == s.hasData
  }

  lemma AckOneValid(s: State, ack: int)
    requires Valid(s) && s.unacked != []
    ensures Valid(AckOne(s))
    ensures s.unacked[0].seqNo <= ack <==> Covered(s, ack) > 0
    ensures Covered(s, ack) > 0 ==> Covered(AckOne(s), ack) == Covered(s, ack) - 1
  {
    var r := AckOne(s);
    assert Queue(s)[0] == s.unacked[0];
    assert Queue(r) == Queue(s)[1..];
    assert r.fates[..|r.fates| - 1] == s.fates;
  }

  lemma RetiredNone(s: State)
    ensures Retired(s, s, 0)
  {
    TimesSnoc(s.fates, Acked, 0);
  }

  lemma RetiredTwice(s: State, r: State, k: nat)
    requires s.unacked != [] && Retired(AckOne(s), r, k)
    ensures Retired(s, r, k + 1)
  {
    hide Times;
    assert s.unacked[1..][k..] == s.unacked[k + 1..];
    TimesSnoc(s.fates, Acked, k);
  }

  /** A cumulative ack retires exactly the written entries numbered at or below it,
      and never one that is still waiting to be written. */
  lemma {:induction false} AckExact(s: State, ack: int)
    requires Valid(s)
    ensures Valid(AfterAck(s, ack)) && Retired(s, AfterAck(s, ack), Covered(s, ack))
    decreases |s.unacked|
  {
    hide Valid, Retired, Times;
    if s.unacked == [] {
      RetiredNone(s);
    } else {
      AckOneValid(s, ack);
      if s.unacked[0].seqNo <= ack {
        AckExact(AckOne(s), ack);
        RetiredTwice(s, AfterAck(AckOne(s), ack), Covered(AckOne(s), ack));
      } else {
        RetiredNone(s);
      }
    }
  }

  /** Where the ack loop stops, every written entry left is newer than the ack. */
  lemma OnlyNewerLeft(s: State, ack: int)
    requires Valid(s) && (s.unacked == [] || s.unacked[0].seqNo > ack)
    ensures AfterAck(s, ack) == s
    ensures forall e :: e in s.unacked ==> ack < e.seqNo
  {
    hide Cost, CountDropped;
    forall e | e in s.unacked ensures ack < e.seqNo {
      var i :| 0 <= i < |s.unacked| && s.unacked[i] == e;
      assert Queue(s)[i] == e && Queue(s)[0] == s.unacked[0];
    }
  }

  lemma AckAgain(s: State, ack: int)
    requires s.unacked != [] && s.unacked[0].seqNo <= ack
    ensures AfterAck(s, ack) == AfterAck(AckOne(s), ack)
  {
  }

  // --- the object ------------------------------------------------------------------

  class TcpSink {
    const maxBufferBytes: int
    var unsent: seq<Entry>
    var unacked: seq<Entry>
    var bufferedBytes: int
    var nextSeq: int
    var dropped: int
    var hasData: bool
    ghost var fates: seq<Fate>

    ghost function Model(): State
      reads this
    {
      State(unsent, unacked, bufferedBytes, nextSeq, dropped, hasData, fates)
    }

    constructor (maxBufferBytes: int)
      ensures Model() == INITIAL && Valid(Model())
      ensures this.maxBufferBytes == maxBufferBytes
    {
      this.maxBufferBytes := maxBufferBytes;
      unsent, unacked, bufferedBytes := [], [], 0;
      nextSeq, dropped, hasData, fates := 1, 0, false, [];
    }

    method Send(line: seq<bv8>)
      requires Valid(Model()) && 0 <= maxBufferBytes
      modifies this
      ensures Valid(Model())
      ensures Model() == AfterSend(old(Model()), line, maxBufferBytes)
      ensures dropped >= old(dropped)
      ensures Sent(old(Model()), line, maxBufferBytes, Model(), dropped - old(dropped))
    {
      hide Sent, Queue, EvictOne;
      ghost var start := Model();
      ghost var pushed := Push(start, line);
      PushValid(start, line);
      unsent := unsent + [Entry(nextSeq, line)];
      nextSeq := nextSeq + 1;
      bufferedBytes := bufferedBytes + |line| + ENTRY_OVERHEAD_BYTES;
      assert Model() == pushed;
      while bufferedBytes > maxBufferBytes
        invariant Valid(Model())
        invariant Evict(Model(), maxBufferBytes) == Evict(pushed, maxBufferBytes)
        decreases |Queue(Model())|
      {
        EvictAgain(Model(), maxBufferBytes);
        EvictLoopBody();
      }
      hasData := true;
      SendExact(start, line, maxBufferBytes);
      SentCount(start, line, maxBufferBytes, Model(), SendEvictions(start, line, maxBufferBytes));
    }

    /** The body of the eviction loop. */
    method EvictLoopBody()
      requires Valid(Model()) && unacked + unsent != []
      modifies this
      ensures Model() == EvictOne(old(Model())) && Valid(Model())
      ensures |Queue(Model())| < old(|Queue(Model())|)
    {
      EvictOneValid(Model());
      var evicted;
      if unacked != [] {
        evicted, unacked := unacked[0], unacked[1..];
      } else {
        evicted, unsent := unsent[0], unsent[1..];
      }
      bufferedBytes := bufferedBytes - (|evicted.line| + ENTRY_OVERHEAD_BYTES);
      dropped := dropped + 1;
      fates := fates + [Dropped];
    }

    /** Push every unacked entry onto the left end of `unsent`, newest first. */
    method Requeue()
      modifies this
      ensures Model() == AfterRequeue(old(Model()))
      ensures unsent == old(unacked + unsent) && unacked == []
      ensures unsent != [] ==> hasData
    {
      var i := |unacked|;
      while i > 0
        invariant 0 <= i <= |unacked|
        invariant unacked == old(unacked)
        invariant unsent == old(unacked)[i..] + old(unsent)
        invariant Model() == old(Model()).(unsent := unsent)
      {
        i := i - 1;
        unsent := [unacked[i]] + unsent;
      }
      unacked := [];
      if unsent != [] {
        hasData := true;
      }
    }

    /** One iteration of the send loop that has an entry; returns the line to write. */
    method WriteOne() returns (line: seq<bv8>)
      requires unsent != []
      modifies this
      ensures Model() == AfterWrite(old(Model()))
      ensures line == old(unsent[0].line)
    {
      var entry := unsent[0];
      unsent := unsent[1..];
      unacked := unacked + [entry];
      line := entry.line;
    }

    method ReceiveAck(ack: int)
      requires Valid(Model())
      modifies this
      ensures Valid(Model())
      ensures Model() == AfterAck(old(Model()), ack)
      ensures forall e :: e in unacked ==> ack < e.seqNo
    {
      hide AfterAck, Valid;
      ghost var start := Model();
      AckExact(start, ack);
      while unacked != [] && unacked[0].seqNo <= ack
        invariant Valid(Model()) && AfterAck(Model(), ack) == AfterAck(start, ack)
        decreases |unacked|
      {
        AckOneValid(Model(), ack);
        AckAgain(Model(), ack);
        bufferedBytes := bufferedBytes - (|unacked[0].line| + ENTRY_OVERHEAD_BYTES);
        unacked := unacked[1..];
        fates := fates + [Acked];
      }
      OnlyNewerLeft(Model(), ack);
    }
  }
}
