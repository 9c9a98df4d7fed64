/** The reference consumer: drops duplicates with one high-water mark per (venue, symbol). */
module Receiver {

  type Key = (string, string)

  datatype Tick = Tick(venue: string, symbol: string, tradeId: int)

  datatype Message = Malformed | Parsed(tick: Tick)

  /** `processed` is a history variable: the ticks handed on, in order. */
  datatype State = State(last: map<Key, int>, received: nat, duplicates: nat, processed: seq<Tick>)

  const INITIAL := State(map[], 0, 0, [])

  function KeyOf(t: Tick): Key {
    (t.venue, t.symbol)
  }

  function Mark(last: map<Key, int>, key: Key): int {
    if key in last then last[key] else -1
  }

  predicate Accepts(s: State, m: Message) {
    m.Parsed? && m.tick.tradeId > Mark(s.last, KeyOf(m.tick))
  }

  function AfterMessage(s: State, m: Message): State {
    if m.Malformed? then s
    else if !Accepts(s, m) then s.(duplicates := s.duplicates + 1)
    else s.(last := s.last[KeyOf(m.tick) := m.tick.tradeId],
            received := s.received + 1,
            processed := s.processed + [m.tick])
  }

  function Run(ms: seq<Message>): State {
    if ms == [] then INITIAL else AfterMessage(Run(ms[..|ms| - 1]), ms[|ms| - 1])
  }

  // --- one instrument's view -----------------------------------------------------

  /** What one key's stream looks like: its mark and the ids handed on so far. */
  datatype View = View(mark: int, log: seq<int>)

  function Offer(v: View, id: int): View {
    if id <= v.mark then v else View(id, v.log + [id])
  }

  function Ids(ticks: seq<Tick>, key: Key): seq<int> {
    if ticks == [] then []
    else
      var t := ticks[|ticks| - 1];
      Ids(ticks[..|ticks| - 1], key) + if KeyOf(t) == key then [t.tradeId] else []
  }

  function ViewOf(s: State, key: Key): View {
    View(Mark(s.last, key), Ids(s.processed, key))
  }

  /** Keys are independent: a message moves its own key's view and no other. */
  lemma MessageMovesOneView(s: State, m: Message, key: Key)
    ensures ViewOf(AfterMessage(s, m), key)
            == if m.Parsed? && KeyOf(m.tick) == key then Offer(ViewOf(s, key), m.tick.tradeId)
               else ViewOf(s, key)
  {
    if Accepts(s, m) {
      var r := AfterMessage(s, m);
      assert r.processed[..|r.processed| - 1] == s.processed;
    }
  }

  /** The tick is of this venue and symbol. */
  predicate Names(t: Tick, key: Key) {
    t.venue == key.0 && t.symbol == key.1
  }

  predicate SameInstrument(t: Tick, u: Tick) {
    t.venue == u.venue && t.symbol == u.symbol
  }

  /** Message `i` is a record: a non-negative id above every earlier id of its venue and symbol. */
  predicate IsRecord(ms: seq<Message>, i: nat)
    requires i < |ms|
  {
    && ms[i].Parsed?
    && ms[i].tick.tradeId >= 0
    && forall j :: 0 <= j < i && ms[j].Parsed? && SameInstrument(ms[j].tick, ms[i].tick)
         ==> ms[j].tick.tradeId < ms[i].tick.tradeId
  }

  ghost predicate IsRunningMax(ms: seq<Message>, key: Key, mark: int) {
    && (forall j :: 0 <= j < |ms| && ms[j].Parsed? && Names(ms[j].tick, key) ==> ms[j].tick.tradeId <= mark)
    && (mark == -1
        || exists j :: 0 <= j < |ms| && ms[j].Parsed? && Names(ms[j].tick, key) && ms[j].tick.tradeId == mark)
    && mark >= -1
  }

  lemma {:induction false} MarkIsRunningMax(ms: seq<Message>, key: Key)
    ensures IsRunningMax(ms, key, Mark(Run(ms).last, key))
  {
    if ms != [] {
      var front, m := ms[..|ms| - 1], ms[|ms| - 1];
      MarkIsRunningMax(front, key);
      var mark := Mark(Run(front).last, key);
      if m.Parsed? && Names(m.tick, key) && m.tick.tradeId > mark {
        assert ms[|ms| - 1].tick.tradeId == Mark(Run(ms).last, key);
      } else {
        assert Mark(Run(ms).last, key) == mark;
        if mark != -1 {
          var j :| 0 <= j < |front| && front[j].Parsed? && Names(front[j].tick, key) && front[j].tick.tradeId == mark;
          assert ms[j] == front[j];
        }
      }
      forall j | 0 <= j < |ms| && ms[j].Parsed? && Names(ms[j].tick, key)
        ensures ms[j].tick.tradeId <= Mark(Run(ms).last, key)
      {
        if j < |front| {
          assert front[j] == ms[j];
        }
      }
    }
  }

  /** The consumer hands on exactly the records of each instrument's id stream, so a redelivered
      id is always dropped and an id is lost only when a larger one came first. */
  lemma HandsOnExactlyTheRecords(ms: seq<Message>, i: nat)
    requires i < |ms|
    ensures Accepts(Run(ms[..i]), ms[i]) <==> IsRecord(ms, i)
  {
    if ms[i].Parsed? {
      var key := KeyOf(ms[i].tick);
      var front := ms[..i];
      MarkIsRunningMax(front, key);
      var mark := Mark(Run(front).last, key);
      if IsRecord(ms, i) && mark != -1 {
        var j :| 0 <= j < |front| && front[j].Parsed? && Names(front[j].tick, key) && front[j].tick.tradeId == mark;
        assert ms[j] == front[j] && SameInstrument(ms[j].tick, ms[i].tick);
      }
      forall j | 0 <= j < i && ms[j].Parsed? && SameInstrument(ms[j].tick, ms[i].tick)
        ensures ms[j].tick.tradeId <= mark
      {
        assert front[j] == ms[j] && Names(front[j].tick, key);
      }
    }
  }

  /** The ticks of the records, in order of arrival. */
  function Records(ms: seq<Message>): seq<Tick> {
    if ms == [] then []
    else Records(ms[..|ms| - 1]) + if IsRecord(ms, |ms| - 1) then [ms[|ms| - 1].tick] else []
  }

  function CountParsed(ms: seq<Message>): nat {
    if ms == [] then 0 else CountParsed(ms[..|ms| - 1]) + if ms[|ms| - 1].Parsed? then 1 else 0
  }

  /** What is handed on is the records in order of arrival; `received` counts them, and with
      `duplicates` every message that could be parsed. */
  lemma {:induction false} CountsAndOutput(ms: seq<Message>)
    ensures var s := Run(ms);
            && s.processed == Records(ms) && s.received == |Records(ms)|
            && s.received + s.duplicates == CountParsed(ms)
  {
    if ms != [] {
      CountsAndOutput(ms[..|ms| - 1]);
      HandsOnExactlyTheRecords(ms, |ms| - 1);
    }
  }

  // --- the object ------------------------------------------------------------------

  class Subscriber {
    var lastTradeId: map<Key, int>
    var received: nat
    var duplicates: nat
    ghost var processed: seq<Tick>

    ghost function Model(): State
      reads this
    {
      State(lastTradeId, received, duplicates, processed)
    }

    constructor ()
      ensures Model() == INITIAL
    {
      lastTradeId, received, duplicates, processed := map[], 0, 0, [];
    }

    method OnMessage(m: Message)
      modifies this
      ensures Model() == AfterMessage(old(Model()), m)
    {
      match m
      case Malformed =>
      case Parsed(tick) =>
        var key := (tick.venue, tick.symbol);
        if tick.tradeId <= Mark(lastTradeId, key) {
          duplicates := duplicates + 1;
        } else {
          lastTradeId := lastTradeId[key := tick.tradeId];
          received := received + 1;
          processed := processed + [tick];
        }
    }
  }
}
