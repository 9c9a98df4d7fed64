/** Streaming an archive day's CSV rows as column chunks. */
module Chunks {
  import opened Buckets
  import opened Bars
  import opened Kdb
  import opened Backfill
  import opened Options
  import Bridge

  /** A CSV row: blank or a header, or one trade. */
  datatype CsvRow = Skipped | Line(id: int, time: int, price: real, qty: real, buyerMaker: bool)

  function ParseLine(r: CsvRow, sym: string): Stamped<Tick<Trade>>
    requires r.Line?
  {
    Stamped(Bridge.ToMillis(r.time), Tick(sym, Trade(r.id, r.price, r.qty, r.buyerMaker)))
  }

  /** The trades of the file, in order. */
  function Parsed(csv: seq<CsvRow>, sym: string): Table<Trade> {
    if csv == [] then []
    else (if csv[0].Line? then [ParseLine(csv[0], sym)] else []) + Parsed(csv[1..], sym)
  }

  /** A chunk is emitted as soon as it has `size` rows; a size below one acts as one. */
  function Limit(size: int): (k: nat)
    ensures k >= 1
  {
    if size < 1 then 1 else size
  }

  /** Consecutive chunks of `k` rows, the last one whatever is left. */
  function Split(rows: Table<Trade>, k: nat): seq<Table<Trade>>
    requires k >= 1
    decreases |rows|
  {
    if rows == [] then []
    else if |rows| <= k then [rows]
    else [rows[..k]] + Split(rows[k..], k)
  }

  lemma {:induction false} SplitJoins(rows: Table<Trade>, k: nat)
    requires k >= 1
    ensures Flatten(Split(rows, k)) == rows
    decreases |rows|
  {
    if rows != [] && |rows| > k {
      SplitJoins(rows[k..], k);
      var c := [rows[..k]] + Split(rows[k..], k);
      assert c[0] == rows[..k] && c[1..] == Split(rows[k..], k);
      assert rows == rows[..k] + rows[k..];
    } else if rows != [] {
      assert Flatten([rows]) == rows + Flatten([]);
    }
  }

  /** No chunk is empty, every chunk but the last is full, and none is longer. */
  lemma {:induction false} SplitShape(rows: Table<Trade>, k: nat, i: nat)
    requires k >= 1 && i < |Split(rows, k)|
    ensures 1 <= |Split(rows, k)[i]| <= k
    ensures i < |Split(rows, k)| - 1 ==> |Split(rows, k)[i]| == k
    decreases i
  {
    if |rows| > k && i > 0 {
      assert Split(rows, k)[i] == Split(rows[k..], k)[i - 1];
      SplitShape(rows[k..], k, i - 1);
    }
  }

  /** Streamed in chunks of any positive size every chunk but the last has that size; a size below one is one. */
  lemma {:induction false} ChunkSizes(csv: seq<CsvRow>, sym: string, size: int, i: nat)
    requires i < |Split(Parsed(csv, sym), Limit(size))|
    ensures var chunks := Split(Parsed(csv, sym), Limit(size));
            && (i < |chunks| - 1 ==> |chunks[i]| == size || (size < 1 && |chunks[i]| == 1))
            && 1 <= |chunks[i]| && (|chunks[i]| <= size || (size < 1 && |chunks[i]| == 1))
  {
    SplitShape(Parsed(csv, sym), Limit(size), i);
  }

  lemma {:induction false} SplitOff(first: Table<Trade>, more: Table<Trade>, k: nat)
    requires k >= 1 && |first| == k
    ensures Split(first + more, k) == [first] + Split(more, k)
  {
    var all := first + more;
    assert all[..k] == first && all[k..] == more;
    if more == [] {
      assert all == first && Split(more, k) == [];
    }
  }

  lemma {:induction false} SplitFull(done: seq<Table<Trade>>, k: nat, rest: Table<Trade>)
    requires k >= 1 && forall i :: 0 <= i < |done| ==> |done[i]| == k
    ensures Split(Flatten(done) + rest, k) == done + Split(rest, k)
    decreases |done|
  {
    hide Split;
    if done == [] {
      assert Flatten(done) + rest == rest;
    } else {
      var tail := done[1..];
      assert forall i :: 0 <= i < |tail| ==> tail[i] == done[i + 1];
      SplitFull(tail, k, rest);
      assert Flatten(done) + rest == done[0] + (Flatten(tail) + rest);
      SplitOff(done[0], Flatten(tail) + rest, k);
      assert done == [done[0]] + tail;
    }
  }

  lemma {:induction false} ParsedSnoc(csv: seq<CsvRow>, r: CsvRow, sym: string)
    ensures Parsed(csv + [r], sym) == Parsed(csv, sym) + if r.Line? then [ParseLine(r, sym)] else []
  {
    if csv == [] {
      assert csv + [r] == [r];
    } else {
      hide ParseLine;
      assert (csv + [r])[1..] == csv[1..] + [r] && (csv + [r])[0] == csv[0];
      ParsedSnoc(csv[1..], r, sym);
    }
  }

  lemma ParsedNothing(sym: string)
    ensures Parsed([], sym) == []
  {
  }

  lemma SplitLast(rows: Table<Trade>, k: nat)
    requires |rows| < k
    ensures Split(rows, k) == if rows == [] then [] else [rows]
  {
  }

  /** `iter_trade_chunks`, all chunks collected. */
  method IterTradeChunks(csv: seq<CsvRow>, sym: string, chunkSize: int) returns (chunks: seq<Table<Trade>>)
    ensures chunks == Split(Parsed(csv, sym), Limit(chunkSize))
  {
    hide ParseLine, Parsed, Split;
    var cols: Table<Trade> := [];
    chunks := [];
    ParsedNothing(sym);
    var n, i := 0, 0;
    while i < |csv|
      invariant 0 <= i <= |csv|
      invariant n == |cols| && n < Limit(chunkSize)
      invariant forall j :: 0 <= j < |chunks| ==> |chunks[j]| == Limit(chunkSize)
      invariant Flatten(chunks) + cols == Parsed(csv[..i], sym)
    {
      assert csv[..i + 1] == csv[..i] + [csv[i]];
      ParsedSnoc(csv[..i], csv[i], sym);
      if csv[i].Line? {
        cols := cols + [ParseLine(csv[i], sym)];
        n := n + 1;
        if n >= chunkSize {
          FlattenSnoc(chunks, cols);
          chunks := chunks + [cols];
          cols, n := [], 0;
        }
      }
      i := i + 1;
    }
    assert csv[..i] == csv;
    SplitFull(chunks, Limit(chunkSize), cols);
    SplitLast(cols, Limit(chunkSize));
    if n > 0 {
      chunks := chunks + [cols];
    }
  }

  /** The published files: one per symbol and day, or none yet. */
  type Files = (string, int) -> Option<seq<CsvRow>>

  function ArchiveOf(files: Files, chunkSize: int): Archive {
    (s: string, day: int) => match files(s, day)
                             case None => Missing
                             case Some(csv) => Complete(Split(Parsed(csv, s), Limit(chunkSize)))
  }

  lemma {:induction false} DayIgnoresChunkSize(files: Files, a: int, b: int, syms: seq<string>, day: int)
    ensures Inserted(syms, day, ArchiveOf(files, a)) == Inserted(syms, day, ArchiveOf(files, b))
    ensures Wrote(syms, day, ArchiveOf(files, a)) == Wrote(syms, day, ArchiveOf(files, b))
  {
    forall s ensures ArchiveOf(files, a)(s, day).Complete? == ArchiveOf(files, b)(s, day).Complete? {
    }
    if syms != [] {
      DayIgnoresChunkSize(files, a, b, syms[1..], day);
      match files(syms[0], day)
      case None =>
      case Some(csv) =>
        SplitJoins(Parsed(csv, syms[0]), Limit(a));
        SplitJoins(Parsed(csv, syms[0]), Limit(b));
    }
  }

  /** The store that a fill leaves, and the days it saves, do not depend on the chunk size. */
  lemma {:induction false} FillIgnoresChunkSize(f: Filled, dates: seq<int>, existing: set<int>, syms: seq<string>,
                                                files: Files, a: int, b: int)
    ensures Fill(f, dates, existing, syms, ArchiveOf(files, a)) == Fill(f, dates, existing, syms, ArchiveOf(files, b))
  {
    hide Savedown, InsertRaw;
    if dates != [] {
      FillIgnoresChunkSize(f, dates[..|dates| - 1], existing, syms, files, a, b);
      DayIgnoresChunkSize(files, a, b, syms, dates[|dates| - 1]);
    }
  }
}
