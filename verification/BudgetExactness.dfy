/** What the incremental budget keeps: agreement with a from-scratch fold while transcripts only
    grow, and monotonicity under any rewriting. */
module BudgetExactness {
  import opened Transcript
  import opened Sums
  import opened ClaudeBudget

  // ---------------------------------------------------------------- lookups of absorbed records

  lemma {:induction false} AbsorbedPeak(usage: Usage, path: Path, records: seq<Record>, p: Path, id: string)
    requires NonNegative(usage)
    ensures NonNegative(AbsorbAll(usage, path, records))
    ensures Lookup(AbsorbAll(usage, path, records), p, id)
         == if p == path then Join(Lookup(usage, p, id), PeakOf(records, id)) else Lookup(usage, p, id)
  {
    if records != [] {
      AbsorbedPeak(usage, path, records[..|records| - 1], p, id);
    }
  }

  /** Every entry stays, and its counters do not go down. */
  predicate NeverLess(before: Usage, after: Usage) {
    forall k :: k in before ==> k in after && before[k].0 <= after[k].0 && before[k].1 <= after[k].1
  }

  lemma {:induction false} AbsorbedNeverLess(usage: Usage, path: Path, records: seq<Record>)
    requires NonNegative(usage)
    ensures NonNegative(AbsorbAll(usage, path, records))
    ensures NeverLess(usage, AbsorbAll(usage, path, records))
  {
    if records != [] {
      AbsorbedNeverLess(usage, path, records[..|records| - 1]);
    }
  }

  // ---------------------------------------------------------------- monotonicity under rewrites

  lemma {:induction false} ScanNeverLess(ledger: Ledger, paths: seq<Path>, files: map<Path, string>, parse: Parser)
    requires NonNegative(ledger.usage)
    ensures var after := AfterScan(ledger, paths, files, parse).ledger.usage;
            NonNegative(after) && NeverLess(ledger.usage, after)
    decreases paths
  {
    if paths != [] {
      if paths[0] in files {
        var r := Read(files[paths[0]], StartOf(ledger.offsets, paths[0], files[paths[0]]), parse);
        AbsorbedNeverLess(ledger.usage, paths[0], r.records);
        ScanNeverLess(AfterFile(ledger, paths[0], files[paths[0]], parse), paths[1..], files, parse);
      } else {
        ScanNeverLess(ledger, paths[1..], files, parse);
      }
    }
  }

  lemma TotalsNeverLess(before: Usage, after: Usage)
    requires NonNegative(before) && NonNegative(after) && NeverLess(before, after)
    ensures InputTotal(before) <= InputTotal(after) && OutputTotal(before) <= OutputTotal(after)
  {
    SumMonotone(map k | k in before :: before[k].0, map k | k in after :: after[k].0);
    SumMonotone(map k | k in before :: before[k].1, map k | k in after :: after[k].1);
  }

  /** The ledger after a schedule of checks on arbitrary snapshots. */
  function AfterChecks(ledger: Ledger, checks: seq<Snapshot>, parse: Parser): Ledger {
    if checks == [] then ledger
    else
      var last := checks[|checks| - 1];
      AfterScan(AfterChecks(ledger, checks[..|checks| - 1], parse), last.paths, last.files, parse).ledger
  }

  lemma {:induction false} ChecksNeverLess(ledger: Ledger, checks: seq<Snapshot>, parse: Parser)
    requires NonNegative(ledger.usage)
    ensures var after := AfterChecks(ledger, checks, parse).usage;
            NonNegative(after) && NeverLess(ledger.usage, after)
  {
    if checks != [] {
      var last := checks[|checks| - 1];
      ChecksNeverLess(ledger, checks[..|checks| - 1], parse);
      ScanNeverLess(AfterChecks(ledger, checks[..|checks| - 1], parse), last.paths, last.files, parse);
    }
  }

  /** Once the limit is reached no later check passes, whatever is appended, cut off or rewritten
      in between and whatever the checks in between said. */
  lemma LimitIsFinal(ledger: Ledger, between: seq<Snapshot>, last: Snapshot, parse: Parser,
                     inputLimit: int, outputLimit: int)
    requires NonNegative(ledger.usage)
    requires InputTotal(ledger.usage) >= inputLimit || OutputTotal(ledger.usage) >= outputLimit
    ensures Judge(AfterScan(AfterChecks(ledger, between, parse), last.paths, last.files, parse),
                  inputLimit, outputLimit) != Passed
  {
    var middle := AfterChecks(ledger, between, parse);
    ChecksNeverLess(ledger, between, parse);
    ScanNeverLess(middle, last.paths, last.files, parse);
    TotalsNeverLess(ledger.usage, middle.usage);
    TotalsNeverLess(middle.usage, AfterScan(middle, last.paths, last.files, parse).ledger.usage);
  }

  // ---------------------------------------------------------------- exactness under growth

  /** Append-only growth: no file disappears, every file keeps what it had. */
  predicate Grows(before: map<Path, string>, after: map<Path, string>) {
    forall p :: p in before ==> p in after && before[p] <= after[p]
  }

  /** The part of a file the ledger has already moved over. */
  function Consumed(ledger: Ledger, files: map<Path, string>, path: Path): string {
    if path in files && Offset(ledger.offsets, path) <= |files[path]|
    then files[path][..Offset(ledger.offsets, path)] else ""
  }

  predicate OffsetsFit(ledger: Ledger, files: map<Path, string>) {
    forall p :: p in ledger.offsets ==> p in files && AtLineStart(files[p], ledger.offsets[p])
  }

  /** The usage map is the per-message maximum over exactly the consumed records. */
  ghost predicate Exact(ledger: Ledger, files: map<Path, string>, parse: Parser) {
    && OffsetsFit(ledger, files)
    && NonNegative(ledger.usage)
    && forall p, id :: Lookup(ledger.usage, p, id) == PeakOf(Records(Consumed(ledger, files, p), 0, parse), id)
  }

  lemma ExactAfterGrowth(ledger: Ledger, before: map<Path, string>, after: map<Path, string>, parse: Parser)
    requires Exact(ledger, before, parse) && Grows(before, after)
    ensures Exact(ledger, after, parse)
  {
    forall p ensures Consumed(ledger, before, p) == Consumed(ledger, after, p) {
      if p in ledger.offsets {
        assert after[p][..ledger.offsets[p]] == before[p][..ledger.offsets[p]];
      }
    }
  }

  /** Reading one file moves its offset and adds the peaks of exactly the records in between. */
  lemma FileStep(ledger: Ledger, files: map<Path, string>, path: Path, parse: Parser, id: string)
    requires OffsetsFit(ledger, files) && NonNegative(ledger.usage) && path in files
    requires Lookup(ledger.usage, path, id) == PeakOf(Records(Consumed(ledger, files, path), 0, parse), id)
    ensures var after := AfterFile(ledger, path, files[path], parse);
            && OffsetsFit(after, files)
            && Lookup(after.usage, path, id) == PeakOf(Records(Consumed(after, files, path), 0, parse), id)
  {
    var content := files[path];
    var start := StartOf(ledger.offsets, path, content);
    var r := Read(content, start, parse);
    MovedOver(content, start, parse);
    hide Records, Read, AbsorbAll, PeakOf;
    PeakConcat(Records(content[..start], 0, parse), r.records, id);
    AbsorbedPeak(ledger.usage, path, r.records, path, id);
  }

  lemma MovedOver(content: string, start: nat, parse: Parser)
    requires AtLineStart(content, start)
    ensures var r := Read(content, start, parse);
            && AtLineStart(content, r.end)
            && Records(content[..r.end], 0, parse) == Records(content[..start], 0, parse) + r.records
  {
    var r := Read(content, start, parse);
    ReadIsRecords(content, start, parse);
    hide Records, Read, HasLine, LineEnd;
    var head := content[..r.end];
    assert head[..start] == content[..start];
    RecordsSplit(head, 0, start, parse);
  }

  lemma ExactAfterFile(ledger: Ledger, files: map<Path, string>, path: Path, parse: Parser)
    requires Exact(ledger, files, parse) && path in files
    ensures Exact(AfterFile(ledger, path, files[path], parse), files, parse)
    ensures !BrokenIn(ledger, path, files[path], parse) ==>
              AtLastLine(files[path], Offset(AfterFile(ledger, path, files[path], parse).offsets, path))
    ensures forall p :: p != path ==>
              Offset(AfterFile(ledger, path, files[path], parse).offsets, p) == Offset(ledger.offsets, p)
  {
    var start := StartOf(ledger.offsets, path, files[path]);
    var r := Read(files[path], start, parse);
    ReadIsRecords(files[path], start, parse);
    var after := AfterFile(ledger, path, files[path], parse);
    hide Records, Read, PeakOf, AbsorbAll;
    AbsorbedNeverLess(ledger.usage, path, r.records);
    forall p, id ensures Lookup(after.usage, p, id) == PeakOf(Records(Consumed(after, files, p), 0, parse), id) {
      AbsorbedPeak(ledger.usage, path, r.records, p, id);
      if p == path {
        FileStep(ledger, files, path, parse, id);
      } else {
        assert Consumed(after, files, p) == Consumed(ledger, files, p);
      }
    }
    assert OffsetsFit(after, files);
  }

  ghost predicate CaughtUp(ledger: Ledger, files: map<Path, string>, paths: set<Path>) {
    forall p :: p in paths && p in files ==> AtLastLine(files[p], Offset(ledger.offsets, p))
  }

  lemma {:induction false} ExactAfterScan(ledger: Ledger, paths: seq<Path>, files: map<Path, string>, parse: Parser, done: set<Path>)
    requires Exact(ledger, files, parse) && CaughtUp(ledger, files, done)
    ensures var scan := AfterScan(ledger, paths, files, parse);
            && Exact(scan.ledger, files, parse)
            && (!scan.broken ==> CaughtUp(scan.ledger, files, done + set p | p in paths))
    decreases paths
  {
    if paths != [] {
      hide Exact, AfterFile, BrokenIn, AtLastLine;
      var p := paths[0];
      assert (set q | q in paths) == {p} + set q | q in paths[1..];
      if p in files {
        ExactAfterFile(ledger, files, p, parse);
        var next := AfterFile(ledger, p, files[p], parse);
        if !BrokenIn(ledger, p, files[p], parse) {
          ExactAfterScan(next, paths[1..], files, parse, done + {p});
          assert done + {p} + (set q | q in paths[1..]) == done + set q | q in paths;
        }
      } else {
        ExactAfterScan(ledger, paths[1..], files, parse, done + {p});
        assert done + {p} + (set q | q in paths[1..]) == done + set q | q in paths;
      }
    }
  }

  /** A schedule of checks on transcripts that only grow. New files may appear at any time. */
  predicate AppendOnly(checks: seq<Snapshot>) {
    forall i :: 0 < i < |checks| ==> Grows(checks[i - 1].files, checks[i].files)
  }

  lemma {:induction false} ChecksExact(checks: seq<Snapshot>, parse: Parser)
    requires checks != [] && AppendOnly(checks)
    ensures Exact(AfterChecks(Ledger(map[], map[]), checks, parse), checks[|checks| - 1].files, parse)
  {
    var last := checks[|checks| - 1];
    var earlier := checks[..|checks| - 1];
    var before := AfterChecks(Ledger(map[], map[]), earlier, parse);
    if earlier != [] {
      ChecksExact(earlier, parse);
      ExactAfterGrowth(before, earlier[|earlier| - 1].files, last.files, parse);
    }
    ExactAfterScan(before, last.paths, last.files, parse, {});
  }

  // ---------------------------------------------------------------- files without broken records

  /** No complete line of any file makes the check raise. */
  ghost predicate Unbroken(files: map<Path, string>, parse: Parser) {
    forall p, r :: p in files && r in Records(files[p], 0, parse) ==> !r.Broken?
  }

  lemma FileUnbroken(ledger: Ledger, files: map<Path, string>, path: Path, parse: Parser)
    requires OffsetsFit(ledger, files) && path in files && Unbroken(files, parse)
    ensures !BrokenIn(ledger, path, files[path], parse)
  {
    var content := files[path];
    var start := StartOf(ledger.offsets, path, content);
    var r := Read(content, start, parse);
    MovedOver(content, start, parse);
    RecordsSplit(content, 0, r.end, parse);
    ReadStopsAtBroken(content, start, parse);
    hide Records, Read;
    assert forall x :: x in r.records ==> x in Records(content, 0, parse);
    assert r.records != [] ==> r.records[|r.records| - 1] in r.records;
  }

  /** Such files never make a check raise. */
  lemma {:induction false} ScanUnbroken(ledger: Ledger, paths: seq<Path>, files: map<Path, string>, parse: Parser)
    requires Exact(ledger, files, parse) && Unbroken(files, parse)
    ensures !AfterScan(ledger, paths, files, parse).broken
    decreases paths
  {
    if paths != [] {
      if paths[0] in files {
        FileUnbroken(ledger, files, paths[0], parse);
        ExactAfterFile(ledger, files, paths[0], parse);
        hide Exact, AfterFile, BrokenIn, Unbroken;
        ScanUnbroken(AfterFile(ledger, paths[0], files[paths[0]], parse), paths[1..], files, parse);
      } else {
        ScanUnbroken(ledger, paths[1..], files, parse);
      }
    }
  }

  lemma NothingExact(files: map<Path, string>, parse: Parser)
    ensures Exact(Ledger(map[], map[]), files, parse)
  {
  }

  lemma LastCheckUnbroken(checks: seq<Snapshot>, parse: Parser)
    requires checks != [] && AppendOnly(checks) && Unbroken(checks[|checks| - 1].files, parse)
    ensures var last := checks[|checks| - 1];
            !AfterScan(AfterChecks(Ledger(map[], map[]), checks[..|checks| - 1], parse), last.paths, last.files, parse).broken
  {
    var last := checks[|checks| - 1];
    var earlier := checks[..|checks| - 1];
    var before := AfterChecks(Ledger(map[], map[]), earlier, parse);
    if earlier != [] {
      ChecksExact(earlier, parse);
      ExactAfterGrowth(before, earlier[|earlier| - 1].files, last.files, parse);
    } else {
      NothingExact(last.files, parse);
    }
    ScanUnbroken(before, last.paths, last.files, parse);
  }

  /** The usage map is the per-message maximum over all complete lines, folded from scratch. */
  ghost predicate Current(usage: Usage, files: map<Path, string>, parse: Parser) {
    forall p, id ::
      Lookup(usage, p, id) == if p in files then PeakOf(Records(files[p], 0, parse), id) else Unseen
  }

  /** The main result. After any schedule of checks on growing transcripts whose last check saw
      every file and met no broken record, the map holds exactly the per-message maxima of all
      complete lines, folded from scratch, and every offset is the end of the last complete line. */
  lemma IncrementalIsExact(checks: seq<Snapshot>, parse: Parser)
    requires checks != [] && AppendOnly(checks)
    requires var last := checks[|checks| - 1];
             && (forall p :: p in last.files ==> p in last.paths)
             && !AfterScan(AfterChecks(Ledger(map[], map[]), checks[..|checks| - 1], parse), last.paths, last.files, parse).broken
    ensures var last := checks[|checks| - 1];
            var ledger := AfterChecks(Ledger(map[], map[]), checks, parse);
            && (forall p :: p in last.files ==> AtLastLine(last.files[p], Offset(ledger.offsets, p)))
            && Current(ledger.usage, last.files, parse)
  {
    var last := checks[|checks| - 1];
    var earlier := checks[..|checks| - 1];
    var before := AfterChecks(Ledger(map[], map[]), earlier, parse);
    var ledger := AfterChecks(Ledger(map[], map[]), checks, parse);
    if earlier != [] {
      ChecksExact(earlier, parse);
      ExactAfterGrowth(before, earlier[|earlier| - 1].files, last.files, parse);
    }
    ExactAfterScan(before, last.paths, last.files, parse, {});
    hide AfterScan, AfterChecks, Records, PeakOf, AtLastLine;
    forall p | p in last.files
      ensures Records(last.files[p], 0, parse) == Records(Consumed(ledger, last.files, p), 0, parse)
    {
      CaughtUpFile(ledger, last.files, p, parse);
    }
  }

  lemma CaughtUpFile(ledger: Ledger, files: map<Path, string>, p: Path, parse: Parser)
    requires p in files && AtLastLine(files[p], Offset(ledger.offsets, p))
    ensures Records(files[p], 0, parse) == Records(Consumed(ledger, files, p), 0, parse)
  {
    var content, offset := files[p], Offset(ledger.offsets, p);
    RecordsSplit(content, 0, offset, parse);
    NoLineAfterLast(content, offset, parse);
  }

  lemma NoLineAfterLast(s: string, offset: nat, parse: Parser)
    requires AtLastLine(s, offset)
    ensures Records(s, offset, parse) == []
  {
  }
}
