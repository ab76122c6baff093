/** `TranscriptBudget`: the offset-based tailer that bounds an automated Claude session. */
module ClaudeBudget {
  import opened Transcript
  import opened Sums

  type Path = string
  type Usage = map<(Path, string), (int, int)>

  /** The three input counters the budget adds up for one record. */
  function Inputs(tokens: Tokens): int {
    tokens.input + tokens.cacheRead + tokens.cacheCreation
  }

  // ---------------------------------------------------------------- reference: per-message maximum

  /** The highest counters seen for one message of one transcript. */
  datatype Peak = Unseen | Seen(inputs: int, outputs: int)

  function Join(p: Peak, q: Peak): Peak {
    match (p, q)
    case (Unseen, _) => q
    case (_, Unseen) => p
    case (Seen(i, o), Seen(i', o')) => Seen(Max(i, i'), Max(o, o'))
  }

  predicate Counts(r: Record, id: string) {
    r.Message? && r.id == id
  }

  function PeakOf(records: seq<Record>, id: string): Peak {
    if records == [] then Unseen else
    var last := records[|records| - 1];
    var before := PeakOf(records[..|records| - 1], id);
    if Counts(last, id) then Join(before, Seen(Max(0, Inputs(last.tokens)), Max(0, last.tokens.output)))
    else before
  }

  lemma {:induction false} PeakConcat(a: seq<Record>, b: seq<Record>, id: string)
    ensures PeakOf(a + b, id) == Join(PeakOf(a, id), PeakOf(b, id))
  {
    if b == [] {
      assert a + b == a;
    } else {
      var n := |b| - 1;
      assert (a + b)[..|a + b| - 1] == a + b[..n];
      PeakConcat(a, b[..n], id);
    }
  }

  /** The peak is what its name says: an upper bound that some record, or the floor 0, reaches. */
  lemma {:induction false} PeakIsMaximum(records: seq<Record>, id: string)
    ensures PeakOf(records, id).Seen? <==> exists i :: 0 <= i < |records| && Counts(records[i], id)
    ensures forall i :: 0 <= i < |records| && Counts(records[i], id) ==>
              Inputs(records[i].tokens) <= PeakOf(records, id).inputs
              && records[i].tokens.output <= PeakOf(records, id).outputs
    ensures PeakOf(records, id).Seen? ==>
              && 0 <= PeakOf(records, id).inputs && 0 <= PeakOf(records, id).outputs
              && (PeakOf(records, id).inputs == 0 || exists i ::
                    0 <= i < |records| && Counts(records[i], id) && Inputs(records[i].tokens) == PeakOf(records, id).inputs)
              && (PeakOf(records, id).outputs == 0 || exists i ::
                    0 <= i < |records| && Counts(records[i], id) && records[i].tokens.output == PeakOf(records, id).outputs)
  {
    if records != [] {
      var n := |records| - 1;
      var before := records[..n];
      PeakIsMaximum(before, id);
      assert forall i :: 0 <= i < n ==> before[i] == records[i];
    }
  }

  // ---------------------------------------------------------------- the ledger and its updates

  datatype Ledger = Ledger(offsets: map<Path, nat>, usage: Usage)

  predicate NonNegative(usage: Usage) {
    forall k :: k in usage ==> 0 <= usage[k].0 && 0 <= usage[k].1
  }

  function Lookup(usage: Usage, path: Path, id: string): Peak {
    if (path, id) in usage then Seen(usage[(path, id)].0, usage[(path, id)].1) else Unseen
  }

  function Offset(offsets: map<Path, nat>, path: Path): nat {
    if path in offsets then offsets[path] else 0
  }

  function Absorb(usage: Usage, path: Path, r: Record): Usage {
    if !r.Message? then usage else
    var known := if (path, r.id) in usage then usage[(path, r.id)] else (0, 0);
    usage[(path, r.id) := (Max(known.0, Inputs(r.tokens)), Max(known.1, r.tokens.output))]
  }

  function AbsorbAll(usage: Usage, path: Path, records: seq<Record>): Usage {
    if records == [] then usage
    else Absorb(AbsorbAll(usage, path, records[..|records| - 1]), path, records[|records| - 1])
  }

  /** Where reading a file starts: the stored offset, or 0 when the file has become shorter. */
  function StartOf(offsets: map<Path, nat>, path: Path, content: string): (start: nat)
    ensures start <= |content|
  {
    if |content| < Offset(offsets, path) then 0 else Offset(offsets, path)
  }

  /** The ledger after `done` records of a file, the last of which ends at `end`. */
  function Moved(ledger: Ledger, path: Path, done: seq<Record>, end: nat): Ledger {
    Ledger(if done == [] then ledger.offsets else ledger.offsets[path := end],
           AbsorbAll(ledger.usage, path, done))
  }

  function AfterFile(ledger: Ledger, path: Path, content: string, parse: Parser): Ledger {
    var r := Read(content, StartOf(ledger.offsets, path, content), parse);
    Moved(ledger, path, r.records, r.end)
  }

  predicate BrokenIn(ledger: Ledger, path: Path, content: string, parse: Parser) {
    Read(content, StartOf(ledger.offsets, path, content), parse).broken
  }

  /** The files one check looks at, in its order; paths that do not exist are skipped. */
  datatype Snapshot = Snapshot(paths: seq<Path>, files: map<Path, string>)

  datatype Scan = Scan(ledger: Ledger, broken: bool)

  function AfterScan(ledger: Ledger, paths: seq<Path>, files: map<Path, string>, parse: Parser): Scan
    decreases paths
  {
    if paths == [] then Scan(ledger, false)
    else if paths[0] !in files then AfterScan(ledger, paths[1..], files, parse)
    else
      var next := AfterFile(ledger, paths[0], files[paths[0]], parse);
      if BrokenIn(ledger, paths[0], files[paths[0]], parse) then Scan(next, true)
      else AfterScan(next, paths[1..], files, parse)
  }

  datatype Verdict = Passed | LimitReached(inputs: int, outputs: int) | Raised

  ghost function InputTotal(usage: Usage): int {
    Sum(map k | k in usage :: usage[k].0)
  }

  ghost function OutputTotal(usage: Usage): int {
    Sum(map k | k in usage :: usage[k].1)
  }

  ghost function Judge(scan: Scan, inputLimit: int, outputLimit: int): Verdict {
    var inputs, outputs := InputTotal(scan.ledger.usage), OutputTotal(scan.ledger.usage);
    if scan.broken then Raised
    else if inputs >= inputLimit || outputs >= outputLimit then LimitReached(inputs, outputs)
    else Passed
  }

  /** The reading of a file in the middle of its loop: what is done and what is to come. */
  function Resume(done: seq<Record>, s: string, from: nat, parse: Parser): Reading
    requires from <= |s|
  {
    var rest := Read(s, from, parse);
    Reading(done + rest.records, rest.end, rest.broken)
  }

  lemma ResumeStep(done: seq<Record>, s: string, from: nat, parse: Parser)
    requires from <= |s| && HasLine(s, from)
    ensures var end := LineEnd(s, from);
            var record := parse(s[from..end]);
            Resume(done, s, from, parse)
            == if record.Broken? then Reading(done + [record], end, true)
               else Resume(done + [record], s, end, parse)
  {
    var end := LineEnd(s, from);
    assert done + ([parse(s[from..end])] + Read(s, end, parse).records)
        == done + [parse(s[from..end])] + Read(s, end, parse).records;
  }

  lemma ResumeStart(s: string, from: nat, parse: Parser)
    requires from <= |s|
    ensures Resume([], s, from, parse) == Read(s, from, parse)
  {
  }

  lemma ResumeEnd(done: seq<Record>, s: string, from: nat, parse: Parser)
    requires from <= |s| && !HasLine(s, from)
    ensures Resume(done, s, from, parse) == Reading(done, from, false)
  {
    assert done + [] == done;
  }

  lemma MovedStep(ledger: Ledger, path: Path, done: seq<Record>, at: nat, record: Record, end: nat)
    ensures var so := Moved(ledger, path, done, at);
            Moved(ledger, path, done + [record], end) == Ledger(so.offsets[path := end], Absorb(so.usage, path, record))
    ensures Moved(ledger, path, [], at) == ledger
  {
    assert (done + [record])[..|done + [record]| - 1] == done;
  }

  /** A check raises exactly at a record that cannot be read, and otherwise passes exactly if the usage is
      below both limits. */
  ghost predicate Says(verdict: Verdict, broken: bool, usage: Usage, inputLimit: int, outputLimit: int) {
    var inputs, outputs := Sum(map k | k in usage :: usage[k].0), Sum(map k | k in usage :: usage[k].1);
    if broken then verdict == Raised
    else if inputs < inputLimit && outputs < outputLimit then verdict == Passed
    else verdict == LimitReached(inputs, outputs)
  }

  class TranscriptBudget {
    const parse: Parser
    const inputLimit: int
    const outputLimit: int
    var offsets: map<Path, nat>
    var usage: Usage

    constructor (parse: Parser, inputLimit: int, outputLimit: int)
      ensures State() == Ledger(map[], map[])
      ensures this.parse == parse && this.inputLimit == inputLimit && this.outputLimit == outputLimit
    {
      this.parse := parse;
      this.inputLimit := inputLimit;
      this.outputLimit := outputLimit;
      offsets := map[];
      usage := map[];
    }

    ghost function State(): Ledger
      reads this
    {
      Ledger(offsets, usage)
    }

    /** Keep the higher counters of a repeated message. */
    method Note(path: Path, record: Record)
      modifies this`usage
      ensures usage == Absorb(old(usage), path, record)
    {
      if record.Message? {
        var key := (path, record.id);
        var known := if key in usage then usage[key] else (0, 0);
        usage := usage[key := (Max(known.0, Inputs(record.tokens)), Max(known.1, record.tokens.output))];
      }
    }

    /** The inner loop of `check`: one file from its offset on. */
    method ReadTranscript(path: Path, content: string) returns (broken: bool)
      modifies this
      ensures State() == AfterFile(old(State()), path, content, parse)
      ensures broken <==> BrokenIn(old(State()), path, content, parse)
    {
      var offset := if path in offsets then offsets[path] else 0;
      if |content| < offset {
        offset := 0;
      }
      ghost var done: seq<Record> := [];
      ResumeStart(content, offset, parse);
      MovedStep(State(), path, [], offset, Ignored, offset);
      broken := false;
      hide Moved, Absorb, HasLine, LineEnd, Read, Resume;
      while !broken && HasLine(content, offset)
        invariant offset <= |content|
        invariant Read(content, StartOf(old(offsets), path, content), parse)
               == if broken then Reading(done, offset, true) else Resume(done, content, offset, parse)
        invariant State() == Moved(old(State()), path, done, offset)
        decreases |content| - offset, !broken
      {
        ResumeStep(done, content, offset, parse);
        var end := LineEnd(content, offset);
        var record := parse(content[offset..end]);
        MovedStep(old(State()), path, done, offset, record, end);
        offsets := offsets[path := end];
        Note(path, record);
        broken := record.Broken?;
        done := done + [record];
        offset := end;
      }
      if !broken {
        ResumeEnd(done, content, offset, parse);
      }
    }

    method Check(paths: seq<Path>, files: map<Path, string>) returns (verdict: Verdict)
      modifies this
      ensures State() == AfterScan(old(State()), paths, files, parse).ledger
      ensures verdict == Judge(AfterScan(old(State()), paths, files, parse), inputLimit, outputLimit)
      ensures Says(verdict, AfterScan(old(State()), paths, files, parse).broken, usage, inputLimit, outputLimit)
    {
      ghost var scan := AfterScan(State(), paths, files, parse);
      var i := 0;
      while i < |paths|
        invariant 0 <= i <= |paths|
        invariant AfterScan(State(), paths[i..], files, parse) == scan
      {
        assert paths[i..][1..] == paths[i + 1..];
        if paths[i] in files {
          var broken := ReadTranscript(paths[i], files[paths[i]]);
          if broken {
            return Raised;
          }
        }
        i := i + 1;
      }
      var inputs := Total(map k | k in usage :: usage[k].0);
      var outputs := Total(map k | k in usage :: usage[k].1);
      if inputs >= inputLimit || outputs >= outputLimit {
        return LimitReached(inputs, outputs);
      }
      return Passed;
    }
  }
}
