/** What the summary of an archive fill counts: the fetches it made, by what became of them. */
module FillSummary {
  import opened Backfill
  import opened Buckets
  import opened Kdb
  import opened Bars

  /** The fetches of one day, in order. */
  function DayFetches(syms: seq<string>, day: int, archive: Archive): seq<Fetch> {
    if syms == [] then [] else [archive(syms[0], day)] + DayFetches(syms[1..], day, archive)
  }

  /** All fetches of the fill, in order: one per symbol for each day not yet present. */
  function Fetches(dates: seq<int>, existing: set<int>, syms: seq<string>, archive: Archive): seq<Fetch> {
    if dates == [] then []
    else
      Fetches(dates[..|dates| - 1], existing, syms, archive)
      + if dates[|dates| - 1] in existing then [] else DayFetches(syms, dates[|dates| - 1], archive)
  }

  function MissingOnes(fs: seq<Fetch>): seq<Fetch> {
    if fs == [] then [] else (if fs[0] == Missing then [fs[0]] else []) + MissingOnes(fs[1..])
  }

  function BrokenOnes(fs: seq<Fetch>): seq<Fetch> {
    if fs == [] then [] else (if fs[0].Failed? then [fs[0]] else []) + BrokenOnes(fs[1..])
  }

  function CompleteOnes(fs: seq<Fetch>): seq<Fetch> {
    if fs == [] then [] else (if fs[0].Complete? then [fs[0]] else []) + CompleteOnes(fs[1..])
  }

  /** The rows of the complete fetches, one after another. */
  function Delivered(fs: seq<Fetch>): Table<Trade> {
    if fs == [] then [] else (if fs[0].Complete? then Flatten(fs[0].chunks) else []) + Delivered(fs[1..])
  }

  /** The days that are there already. */
  function Present(dates: seq<int>, existing: set<int>): seq<int> {
    if dates == [] then []
    else
      Present(dates[..|dates| - 1], existing)
      + if dates[|dates| - 1] in existing then [dates[|dates| - 1]] else []
  }

  lemma {:induction false} FetchesAdd(a: seq<Fetch>, b: seq<Fetch>)
    ensures |MissingOnes(a + b)| == |MissingOnes(a)| + |MissingOnes(b)|
    ensures |BrokenOnes(a + b)| == |BrokenOnes(a)| + |BrokenOnes(b)|
    ensures |CompleteOnes(a + b)| == |CompleteOnes(a)| + |CompleteOnes(b)|
    ensures |Delivered(a + b)| == |Delivered(a)| + |Delivered(b)|
  {
    if a == [] {
      assert a + b == b;
    } else {
      FetchesAdd(a[1..], b);
      assert (a + b)[1..] == a[1..] + b;
    }
  }

  lemma {:induction false} DayCounts(syms: seq<string>, day: int, archive: Archive)
    ensures var fs := DayFetches(syms, day, archive);
            && |fs| == |syms|
            && CountMissing(syms, day, archive) == |MissingOnes(fs)|
            && CountFailed(syms, day, archive) == |BrokenOnes(fs)|
            && Rows(syms, day, archive) == |Delivered(fs)|
            && |MissingOnes(fs)| + |BrokenOnes(fs)| + |CompleteOnes(fs)| == |fs|
  {
    if syms != [] {
      DayCounts(syms[1..], day, archive);
      var rest := DayFetches(syms[1..], day, archive);
      assert ([archive(syms[0], day)] + rest)[1..] == rest;
    }
  }

  /** Each fetch is missing, failed or complete and counted as such; `rows` are those of the complete ones. */
  predicate Counts(sum: Summary, fs: seq<Fetch>) {
    && sum.missing == |MissingOnes(fs)| && sum.failed == |BrokenOnes(fs)| && sum.rows == |Delivered(fs)|
    && sum.missing + sum.failed + |CompleteOnes(fs)| == |fs|
  }

  lemma DayAdds(sum: Summary, fs: seq<Fetch>, day: int, existing: set<int>, syms: seq<string>, archive: Archive)
    requires Counts(sum, fs) && day !in existing
    ensures Counts(DaySummary(sum, day, existing, syms, archive), fs + DayFetches(syms, day, archive))
  {
    hide CountMissing, CountFailed, Rows, Wrote, MissingOnes, BrokenOnes, CompleteOnes, Delivered, DayFetches;
    DayCounts(syms, day, archive);
    FetchesAdd(fs, DayFetches(syms, day, archive));
  }

  lemma SkipCounts(sum: Summary, fs: seq<Fetch>, day: int, existing: set<int>, syms: seq<string>, archive: Archive)
    requires Counts(sum, fs) && day in existing
    ensures Counts(DaySummary(sum, day, existing, syms, archive), fs)
  {
  }

  lemma {:induction false} FetchesCounted(dates: seq<int>, existing: set<int>, syms: seq<string>, archive: Archive)
    ensures Counts(Tally(dates, existing, syms, archive), Fetches(dates, existing, syms, archive))
  {
    if dates != [] {
      hide Counts, DaySummary, DayFetches;
      var front, day := dates[..|dates| - 1], dates[|dates| - 1];
      FetchesCounted(front, existing, syms, archive);
      var sum, fs := Tally(front, existing, syms, archive), Fetches(front, existing, syms, archive);
      if day in existing {
        assert fs + [] == fs;
        SkipCounts(sum, fs, day, existing, syms, archive);
      } else {
        DayAdds(sum, fs, day, existing, syms, archive);
      }
    }
  }

  function Times(days: int, syms: int): int {
    days * syms
  }

  lemma OneDayMore(days: int, syms: int)
    ensures Times(days + 1, syms) == Times(days, syms) + syms && Times(0, syms) == 0
  {
  }

  lemma {:induction false} DaysCounted(dates: seq<int>, existing: set<int>, syms: seq<string>, archive: Archive)
    ensures Tally(dates, existing, syms, archive).skipped == |Present(dates, existing)| <= |dates|
    ensures |Fetches(dates, existing, syms, archive)| == Times(|dates| - |Present(dates, existing)|, |syms|)
  {
    OneDayMore(0, |syms|);
    if dates != [] {
      hide Times, DayFetches, Wrote, Rows, CountMissing, CountFailed, MissingOnes, BrokenOnes, CompleteOnes, Delivered;
      var front, day := dates[..|dates| - 1], dates[|dates| - 1];
      DaysCounted(front, existing, syms, archive);
      DayCounts(syms, day, archive);
      assert Fetches(dates, existing, syms, archive)
          == Fetches(front, existing, syms, archive) + if day in existing then [] else DayFetches(syms, day, archive);
      OneDayMore(|front| - |Present(front, existing)|, |syms|);
    }
  }

  /** Every summary: each fetch is counted by what became of it, every day not present is fetched for every
      symbol, and a present one is skipped. */
  lemma SummaryMeaning(dates: seq<int>, existing: set<int>, syms: seq<string>, archive: Archive)
    ensures var sum, fs := Tally(dates, existing, syms, archive), Fetches(dates, existing, syms, archive);
            && Counts(sum, fs) && sum.skipped == |Present(dates, existing)| <= |dates|
            && |fs| == (|dates| - sum.skipped) * |syms|
  {
    FetchesCounted(dates, existing, syms, archive);
    DaysCounted(dates, existing, syms, archive);
  }
}
