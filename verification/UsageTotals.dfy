/** Whole-session totals: budget against rescan, child agents, and deltas between snapshots. */
module UsageTotals {
  import opened Transcript
  import opened Sums
  import opened AgentUsage
  import opened Wrappers
  import opened UsageAgreement
  import Budget = ClaudeBudget
  import Exactness = BudgetExactness

  // ---------------------------------------------------------------- budget against rescan

  /** The transcripts both accountings read the same lines of. */
  predicate Plain(paths: seq<Path>, files: map<Path, string>) {
    forall p :: p in files ==> p in paths && NewlineTerminated(files[p]) && OnlyNewlines(files[p])
  }

  /** The two accountings decode records separately. `parse` is the budget's decoder and `scan` the
      rescan's: on every line of the files the budget does not raise and both find the same. A
      counter that is `null` makes the budget raise, while the rescan takes it for 0. */
  ghost predicate ReadAlike(files: map<Path, string>, parse: Parser, scan: Parser) {
    forall p, line :: p in files && line in BareLines(files[p], 0) ==> !parse(line).Broken? && scan(line) == parse(line)
  }

  lemma SameRecords(files: map<Path, string>, p: Path, parse: Parser, scan: Parser)
    requires p in files && NewlineTerminated(files[p]) && OnlyNewlines(files[p]) && IgnoresNewline(parse)
    requires ReadAlike(files, parse, scan)
    ensures Parsed(FileLines(files[p]), scan) == Records(files[p], 0, parse)
  {
    var lines := BareLines(files[p], 0);
    SameLinesIff(files[p]);
    RecordsAreBareLines(files[p], 0, parse);
    hide BareLines, FileLines, Records;
    forall i | 0 <= i < |lines| ensures scan(lines[i]) == parse(lines[i]) {
      assert lines[i] in lines;
    }
  }

  lemma AlikeIsUnbroken(files: map<Path, string>, parse: Parser, scan: Parser)
    requires ReadAlike(files, parse, scan) && IgnoresNewline(parse)
    ensures Exactness.Unbroken(files, parse)
  {
    forall p, r | p in files && r in Records(files[p], 0, parse) ensures !r.Broken? {
      RecordsAreBareLines(files[p], 0, parse);
      var lines := BareLines(files[p], 0);
      var i :| 0 <= i < |lines| && parse(lines[i]) == r;
      assert lines[i] in lines;
    }
  }

  lemma {:induction false} SeenOccurs(records: seq<Record>, id: string)
    requires Budget.PeakOf(records, id).Seen?
    ensures Occurs(records, id)
  {
    Budget.PeakIsMaximum(records, id);
    var i :| 0 <= i < |records| && Budget.Counts(records[i], id);
  }

  /** One entry of the two dictionaries. */
  lemma EntriesMatch(usage: Budget.Usage, paths: seq<Path>, files: map<Path, string>, parse: Parser, scan: Parser,
      p: Path, id: string)
    requires Plain(paths, files) && ReadAlike(files, parse, scan) && IgnoresNewline(parse) && Exactness.Current(usage, files, parse)
    ensures var messages := MergeAll(map[], AllLines(paths, files), scan);
            && Matches(Budget.Lookup(usage, p, id), if (p, id) in messages then messages[(p, id)] else ZERO)
            && ((p, id) in usage ==> p in files && (p, id) in messages)
            && ((p, id) in usage && Ordered(Records(files[p], 0, parse), id) ==>
                 usage[(p, id)].0 == AllInputs(messages[(p, id)]))
  {
    MergedEntry(AllLines(paths, files), p, id, scan);
    HighestInFile(paths, files, p, id, scan);
    hide MergeAll, AllLines, Highest, Mentioned, Occurs, HighestOf, FileLines, Records, Matches, Ordered, AllInputs, Budget.PeakOf;
    assert Budget.Lookup(usage, p, id)
        == if p in files then Budget.PeakOf(Records(files[p], 0, parse), id) else Budget.Unseen;
    if p in files {
      SameRecords(files, p, parse, scan);
      PeakAtMostHighest(Records(files[p], 0, parse), id);
      if (p, id) in usage {
        SeenOccurs(Records(files[p], 0, parse), id);
        if Ordered(Records(files[p], 0, parse), id) {
          OrderedPeak(Records(files[p], 0, parse), id);
        }
      }
    } else {
      NothingMatches();
    }
  }

  lemma NothingMatches()
    ensures Matches(Budget.Unseen, ZERO)
  {
  }

  ghost function InputSum(messages: Messages): int {
    Sum(map k | k in messages :: AllInputs(messages[k]))
  }

  lemma InputSumOfThree(messages: Messages)
    ensures InputSum(messages) == AllInputs(Totals(messages))
  {
    var input := map k | k in messages :: messages[k].input;
    var cacheCreation := map k | k in messages :: messages[k].cacheCreation;
    var cacheRead := map k | k in messages :: messages[k].cacheRead;
    var two := map k | k in messages :: messages[k].input + messages[k].cacheCreation;
    SumPlus(input, cacheCreation, two);
    SumPlus(two, cacheRead, map k | k in messages :: AllInputs(messages[k]));
  }

  /** All repeated records of every message are ordered. */
  predicate AllOrdered(usage: Budget.Usage, files: map<Path, string>, parse: Parser) {
    forall k :: k in usage && k.0 in files ==> Ordered(Records(files[k.0], 0, parse), k.1)
  }

  /** The budget and the rescan agree on the output total; the budget's input total, a maximum of
      sums, is at most the rescan's sum of maxima, and equal to it when records are ordered. */
  lemma AccountingsAgree(usage: Budget.Usage, paths: seq<Path>, files: map<Path, string>, parse: Parser, scan: Parser)
    requires Plain(paths, files) && ReadAlike(files, parse, scan) && IgnoresNewline(parse) && Exactness.Current(usage, files, parse)
    ensures Budget.OutputTotal(usage) == UsageOf(paths, files, scan).output
    ensures Budget.InputTotal(usage) <= AllInputs(UsageOf(paths, files, scan))
    ensures AllOrdered(usage, files, parse) ==> Budget.InputTotal(usage) == AllInputs(UsageOf(paths, files, scan))
  {
    var messages := MergeAll(map[], AllLines(paths, files), scan);
    forall k: (Path, string)
      ensures k in usage ==> k in messages && EntryAgrees(usage[k], messages[k])
      ensures k in usage && AllOrdered(usage, files, parse) ==> usage[k].0 == AllInputs(messages[k])
      ensures k in messages && k !in usage ==> messages[k] == ZERO
    {
      assert k == (k.0, k.1);
      EntriesMatch(usage, paths, files, parse, scan, k.0, k.1);
    }
    hide MergeAll, AllLines, AllOrdered;
    SumsAgree(usage, messages);
    InputSumOfThree(messages);
  }

  predicate EntryAgrees(entry: (int, int), tokens: Tokens) {
    entry.1 == tokens.output && entry.0 <= AllInputs(tokens)
  }

  lemma SumsAgree(usage: Budget.Usage, messages: Messages)
    requires forall k :: k in usage ==> k in messages && EntryAgrees(usage[k], messages[k])
    requires forall k :: k in messages && k !in usage ==> messages[k] == ZERO
    ensures Budget.OutputTotal(usage) == Totals(messages).output
    ensures Budget.InputTotal(usage) <= InputSum(messages)
    ensures (forall k :: k in usage ==> usage[k].0 == AllInputs(messages[k])) ==>
              Budget.InputTotal(usage) == InputSum(messages)
  {
    var inputs, allInputs := map k | k in usage :: usage[k].0, map k | k in messages :: AllInputs(messages[k]);
    SumIgnoresZeros(map k | k in usage :: usage[k].1, map k | k in messages :: messages[k].output);
    SumMonotone(inputs, allInputs);
    if forall k :: k in usage ==> usage[k].0 == AllInputs(messages[k]) {
      SumIgnoresZeros(inputs, allInputs);
    }
  }

  /** The same for the tailer itself, after any schedule of checks on growing transcripts. That no
      check raised follows: none of the records does. */
  lemma TailerAgreesWithRescan(checks: seq<Budget.Snapshot>, parse: Parser, scan: Parser)
    requires checks != [] && Exactness.AppendOnly(checks) && IgnoresNewline(parse)
    requires var last := checks[|checks| - 1]; Plain(last.paths, last.files) && ReadAlike(last.files, parse, scan)
    ensures var last := checks[|checks| - 1];
            var usage := Exactness.AfterChecks(Budget.Ledger(map[], map[]), checks, parse).usage;
            && Budget.OutputTotal(usage) == UsageOf(last.paths, last.files, scan).output
            && Budget.InputTotal(usage) <= AllInputs(UsageOf(last.paths, last.files, scan))
            && (AllOrdered(usage, last.files, parse) ==>
                 Budget.InputTotal(usage) == AllInputs(UsageOf(last.paths, last.files, scan)))
  {
    hide *;
    var last := checks[|checks| - 1];
    PlainListed(last.paths, last.files);
    AlikeIsUnbroken(last.files, parse, scan);
    Exactness.LastCheckUnbroken(checks, parse);
    Exactness.IncrementalIsExact(checks, parse);
    var usage := Exactness.AfterChecks(Budget.Ledger(map[], map[]), checks, parse).usage;
    AccountingsAgree(usage, last.paths, last.files, parse, scan);
  }

  lemma PlainListed(paths: seq<Path>, files: map<Path, string>)
    requires Plain(paths, files)
    ensures forall p :: p in files ==> p in paths
  {
  }

  // ---------------------------------------------------------------- where they part

  lemma SumOfOne(k: (Path, string), v: int)
    ensures Sum(map[k := v]) == v
  {
    SumTake(map[k := v], k);
    assert map[k := v] - {k} == map[];
  }

  /** The ledger after the first check of one file, from the pass over it. */
  lemma FirstCheck(p: Path, content: string, parse: Parser)
    ensures Budget.AfterScan(Budget.Ledger(map[], map[]), [p], map[p := content], parse).ledger.usage
         == Budget.AbsorbAll(map[], p, Read(content, 0, parse).records)
  {
    var empty := Budget.Ledger(map[], map[]);
    assert [p][1..] == [];
    var next := Budget.AfterFile(empty, p, content, parse);
    assert Budget.AfterScan(next, [], map[p := content], parse).ledger == next;
  }

  lemma RescanOfLines(p: Path, content: string, scan: Parser)
    ensures UsageOf([p], map[p := content], scan) == Totals(MergeAll(map[], Tagged(p, FileLines(content)), scan))
  {
    assert [p][1..] == [];
    assert AllLines([p], map[p := content]) == Tagged(p, FileLines(content));
  }

  /** Text that no reader splits. */
  predicate OneLine(s: string) {
    forall i :: 0 <= i < |s| ==> !Breaks(s[i]) && s[i] != '\r'
  }

  lemma {:induction false} TranslatedAfter(s: string, rest: string)
    requires '\r' !in s
    ensures Translated(s + rest) == s + Translated(rest)
  {
    if s == "" {
      assert s + rest == rest;
    } else {
      assert (s + rest)[1..] == s[1..] + rest;
      TranslatedAfter(s[1..], rest);
    }
  }

  lemma TextLineAt(before: string, line: string, rest: string)
    requires OneLine(line)
    ensures var s := before + line + "\n" + rest;
            TextLines(s, |before|) == [line] + TextLines(s, |before + line| + 1)
  {
    var s := before + line + "\n" + rest;
    assert forall i :: 0 <= i < |line| ==> s[|before| + i] == line[i];
    TextEndAt(s, |before|, |before + line|);
    assert s[|before|..|before + line|] == line;
    TextLinesStep(s, |before|);
    hide TextLines, TextEnd, OneLine, Breaks;
  }

  lemma {:induction false} LineEndAt(s: string, from: nat, end: nat)
    requires from < end <= |s| && s[end - 1] == '\n' && forall i :: from <= i < end - 1 ==> s[i] != '\n'
    ensures LineEnd(s, from) == end
    decreases end - from
  {
    if from < end - 1 {
      LineEndAt(s, from + 1, end);
    }
  }

  lemma ReadWhole(line: string, parse: Parser)
    requires '\n' !in line
    ensures Read(line + "\n", 0, parse).records == [parse(line + "\n")]
  {
    var s := line + "\n";
    LineEndAt(s, 0, |s|);
    assert s[0..|s|] == s;
    assert Read(s, |s|, parse) == Reading([], |s|, false);
  }

  lemma NoNewline(line: string)
    requires OneLine(line)
    ensures '\n' !in line && '\r' !in line
  {
  }

  lemma PlainLine(line: string, parse: Parser)
    requires OneLine(line)
    ensures FileLines(line + "\n") == [line] && Read(line + "\n", 0, parse).records == [parse(line + "\n")]
  {
    NoNewline(line);
    ReadWhole(line, parse);
    TranslatedAfter(line, "\n");
    assert Translated("\n") == "\n";
    TextLineAt("", line, "");
    assert "" + line + "\n" + "" == line + "\n" && |"" + line| == |line|;
    assert TextLines(line + "\n", |line + "\n"|) == [];
  }

  lemma ReturnTranslated(a: string, b: string)
    requires '\r' !in a && '\r' !in b && '\n' !in b && b != ""
    ensures Translated(a + "\r" + b + "\n") == a + "\n" + b + "\n"
  {
    var rest := "\r" + b + "\n";
    assert a + "\r" + b + "\n" == a + rest;
    TranslatedAfter(a, rest);
    assert rest[1..] == b + "\n";
    TranslatedAfter(b, "\n");
    assert Translated("\n") == "\n";
  }

  lemma {:induction false} TextShift(before: string, rest: string, from: nat)
    requires from <= |rest|
    ensures TextLines(before + rest, |before| + from) == TextLines(rest, from)
    decreases |rest| - from
  {
    hide *;
    if from < |rest| {
      var end := TextEnd(rest, from);
      ShiftStep(before, rest, from);
      TextLinesStep(rest, from);
      if end < |rest| {
        TextShift(before, rest, end + 1);
      }
    } else {
      NoMoreLines(rest);
      NoMoreLines(before + rest);
    }
  }

  lemma ShiftStep(before: string, rest: string, from: nat)
    requires from < |rest|
    ensures var end := TextEnd(rest, from);
            TextLines(before + rest, |before| + from)
            == [rest[from..end]] + if end < |rest| then TextLines(before + rest, |before| + (end + 1)) else []
  {
    hide *;
    TextEndShift(before, rest, from);
    SliceShift(before, rest, from, TextEnd(rest, from));
    TextLinesStep(before + rest, |before| + from);
  }

  lemma TextLinesStep(s: string, from: nat)
    requires from < |s|
    ensures var end := TextEnd(s, from);
            TextLines(s, from) == [s[from..end]] + if end < |s| then TextLines(s, end + 1) else []
  {
    hide TextEnd;
  }

  lemma SliceShift(before: string, rest: string, from: nat, end: nat)
    requires from <= end <= |rest|
    ensures (before + rest)[|before| + from..|before| + end] == rest[from..end]
  {
  }

  lemma {:induction false} TextEndShift(before: string, rest: string, from: nat)
    requires from <= |rest|
    ensures TextEnd(before + rest, |before| + from) == |before| + TextEnd(rest, from)
    decreases |rest| - from
  {
    hide Breaks;
    if from < |rest| && !Breaks(rest[from]) {
      TextEndShift(before, rest, from + 1);
    }
  }

  lemma EndingTranslated(line: string, ending: string, rest: string)
    requires '\r' !in line && ending in {"\n", "\r\n", "\r"} && (ending == "\r" ==> rest == "" || rest[0] != '\n')
    ensures Translated(line + ending + rest) == line + "\n" + Translated(rest)
  {
    var tail := ending + rest;
    assert line + ending + rest == line + tail;
    TranslatedAfter(line, tail);
    if ending == "\r\n" {
      assert tail[0] == '\r' && tail[1] == '\n' && tail[2..] == rest;
    } else {
      assert tail[0] == ending[0] && tail[1..] == rest;
    }
    assert line + ("\n" + Translated(rest)) == line + "\n" + Translated(rest);
  }

  /** The rescan takes each of the three line endings for one line end. */
  lemma LineEndings(line: string, ending: string, rest: string)
    requires OneLine(line) && ending in {"\n", "\r\n", "\r"} && (ending == "\r" ==> rest == "" || rest[0] != '\n')
    ensures FileLines(line + ending + rest) == [line] + FileLines(rest)
  {
    NoNewline(line);
    EndingTranslated(line, ending, rest);
    LinesSplit(line, Translated(rest));
    hide Translated, OneLine, TextLines;
  }

  lemma LinesSplit(line: string, later: string)
    requires OneLine(line)
    ensures TextLines(line + "\n" + later, 0) == [line] + TextLines(later, 0)
  {
    hide *;
    TextLineAt("", line, later);
    assert "" + line == line;
    TextShift(line + "\n", later, 0);
  }

  lemma TwoTextLines(a: string, b: string)
    requires OneLine(a) && OneLine(b)
    ensures TextLines(a + "\n" + b + "\n", 0) == [a, b]
  {
    hide TextLines, OneLine;
    var t := a + "\n" + b + "\n";
    TextLineAt("", a, b + "\n");
    assert "" + a + "\n" + (b + "\n") == t && "" + a == a;
    TextLineAt(a + "\n", b, "");
    assert a + "\n" + b + "\n" + "" == t;
    NoMoreLines(t);
  }

  lemma NoMoreLines(s: string)
    ensures TextLines(s, |s|) == []
  {
  }

  lemma ReturnInLine(a: string, b: string, parse: Parser)
    requires OneLine(a) && OneLine(b) && b != ""
    ensures var s := a + "\r" + b + "\n"; FileLines(s) == [a, b] && Read(s, 0, parse).records == [parse(s)]
  {
    hide Read, Translated, OneLine, TextLines;
    NoNewline(a);
    NoNewline(b);
    ReadWhole(a + "\r" + b, parse);
    ReturnTranslated(a, b);
    TwoTextLines(a, b);
  }

  /** A carriage return between two JSON tokens: the budget reads one record, the rescan two halves
      that are none. */
  lemma ReturnDividesAccounts(p: Path, a: string, b: string, id: string, tokens: Tokens, parse: Parser, scan: Parser)
    requires OneLine(a) && OneLine(b) && b != ""
    requires parse(a + "\r" + b + "\n") == Message(id, tokens) && tokens.output > 0
    requires scan(a).Ignored? && scan(b).Ignored?
    ensures var files := map[p := a + "\r" + b + "\n"];
            && Budget.OutputTotal(Budget.AfterScan(Budget.Ledger(map[], map[]), [p], files, parse).ledger.usage) == tokens.output
            && UsageOf([p], files, scan).output == 0
  {
    var content := a + "\r" + b + "\n";
    FirstCheck(p, content, parse);
    RescanOfLines(p, content, scan);
    ReturnInLine(a, b, parse);
    hide FileLines, Read, UsageOf, Budget.AfterScan;
    OneRecord(p, id, tokens, parse(content));
    TwoIgnored(p, a, b, scan);
    NoMessages();
  }

  lemma TwoIgnored(p: Path, a: string, b: string, scan: Parser)
    requires scan(a).Ignored? && scan(b).Ignored?
    ensures MergeAll(map[], Tagged(p, [a, b]), scan) == map[]
  {
    var tagged := Tagged(p, [a, b]);
    assert tagged[..1] == [(p, a)] && tagged[..1][..0] == [];
    assert MergeAll(map[], tagged[..1], scan) == map[];
  }

  lemma NoMessages()
    ensures Totals(map[]).output == 0
  {
  }

  lemma OneRecord(p: Path, id: string, tokens: Tokens, record: Record)
    requires record == Message(id, tokens) && tokens.output > 0
    ensures Budget.OutputTotal(Budget.AbsorbAll(map[], p, [record])) == tokens.output
  {
    assert [record][..0] == [];
    var none: Budget.Usage := map[];
    assert Budget.AbsorbAll(none, p, [record][..0]) == none;
    var usage := Budget.AbsorbAll(map[], p, [record]);
    assert usage == Budget.Absorb(none, p, record);
    assert usage == map[(p, id) := (Max(0, Budget.Inputs(tokens)), tokens.output)];
    assert (map k | k in usage :: usage[k].1) == map[(p, id) := tokens.output];
    SumOfOne((p, id), tokens.output);
  }

  /** A record on which only the budget raises, such as one with a counter that is `null`: the rescan
      counts what the budget does not. */
  lemma BrokenRecordDividesAccounts(p: Path, line: string, id: string, tokens: Tokens, parse: Parser, scan: Parser)
    requires OneLine(line)
    requires parse(line + "\n").Broken? && scan(line) == Message(id, tokens) && tokens.output > 0
    ensures var files := map[p := line + "\n"];
            && Budget.OutputTotal(Budget.AfterScan(Budget.Ledger(map[], map[]), [p], files, parse).ledger.usage) == 0
            && UsageOf([p], files, scan).output == tokens.output
  {
    var content := line + "\n";
    FirstCheck(p, content, parse);
    RescanOfLines(p, content, scan);
    PlainLine(line, parse);
    hide FileLines, Read, UsageOf, Budget.AfterScan;
    assert [parse(content)][..0] == [];
    var usage := Budget.AbsorbAll(map[], p, [parse(content)]);
    assert usage == map[];
    var tagged := Tagged(p, [line]);
    assert tagged == [(p, line)] && tagged[..0] == [];
    var messages := MergeAll(map[], tagged, scan);
    assert messages == map[(p, id) := MaxTokens(ZERO, Clamp(tokens))];
    assert (map k | k in messages :: messages[k].output) == map[(p, id) := tokens.output];
    SumOfOne((p, id), tokens.output);
  }

  // ---------------------------------------------------------------- child agents

  /** `_main_usage`: the main transcript alone, keyed by message id. */
  function MergeMain(messages: map<string, Tokens>, record: Record): map<string, Tokens> {
    if !record.Message? && !record.Blank? then messages else
    messages[record.id := MaxTokens(if record.id in messages then messages[record.id] else ZERO, TokensOf(record))]
  }

  function MergeMainAll(records: seq<Record>): map<string, Tokens> {
    if records == [] then map[]
    else MergeMain(MergeMainAll(records[..|records| - 1]), records[|records| - 1])
  }

  ghost function MainTotals(messages: map<string, Tokens>): Tokens {
    Tokens(Sum(map k | k in messages :: messages[k].input),
           Sum(map k | k in messages :: messages[k].cacheCreation),
           Sum(map k | k in messages :: messages[k].cacheRead),
           Sum(map k | k in messages :: messages[k].output))
  }

  method MergeMainFile(lines: seq<string>, parse: Parser) returns (merged: Option<map<string, Tokens>>)
    ensures merged == if Raises(lines, parse) then None else Some(MergeMainAll(Parsed(lines, parse)))
  {
    var messages: map<string, Tokens> := map[];
    ghost var records := Parsed(lines, parse);
    for j := 0 to |lines|
      invariant messages == MergeMainAll(records[..j])
      invariant forall k :: 0 <= k < j ==> !parse(lines[k]).Broken?
    {
      assert records[..j + 1][..j] == records[..j];
      var record := parse(lines[j]);
      if record.Broken? {
        return None;
      }
      if record.Message? || record.Blank? {
        var previous := if record.id in messages then messages[record.id] else ZERO;
        messages := messages[record.id := MaxTokens(previous, TokensOf(record))];
      }
    }
    assert records[..|lines|] == records;
    merged := Some(messages);
  }

  method MainUsage(main: Path, files: map<Path, string>, parse: Parser) returns (total: Option<Tokens>)
    ensures total == if AnyRaises([main], files, parse) then None else Some(UsageOf([main], files, parse))
  {
    hide FileLines, UsageOf, MergeMainAll, Raises, Parsed;
    MainIsOneFile(main, files, parse);
    assert main in files ==> [main][0] in files;
    if main !in files {
      return Some(ZERO);
    }
    var merged := MergeMainFile(FileLines(files[main]), parse);
    if merged.None? {
      return None;
    }
    var messages := merged.value;
    var input := Total(map k | k in messages :: messages[k].input);
    var cacheCreation := Total(map k | k in messages :: messages[k].cacheCreation);
    var cacheRead := Total(map k | k in messages :: messages[k].cacheRead);
    var output := Total(map k | k in messages :: messages[k].output);
    total := Some(Tokens(input, cacheCreation, cacheRead, output));
  }

  lemma {:induction false} MainTagged(main: Path, lines: seq<string>, parse: Parser, id: string)
    ensures var tagged := MergeAll(map[], Tagged(main, lines), parse);
            var plain := MergeMainAll(Parsed(lines, parse));
            && (id in plain <==> (main, id) in tagged)
            && (id in plain ==> plain[id] == tagged[(main, id)])
            && forall k :: k in tagged ==> k.0 == main
  {
    if lines != [] {
      hide MaxTokens;
      var n := |lines| - 1;
      assert Tagged(main, lines)[..n] == Tagged(main, lines[..n]);
      assert Parsed(lines, parse)[..n] == Parsed(lines[..n], parse);
      MainTagged(main, lines[..n], parse, id);
      var last := parse(lines[n]);
      if last.Message? || last.Blank? {
        MainTagged(main, lines[..n], parse, last.id);
      }
    }
  }

  lemma MainIsOneFile(main: Path, files: map<Path, string>, parse: Parser)
    ensures UsageOf([main], files, parse)
         == if main in files then MainTotals(MergeMainAll(Parsed(FileLines(files[main]), parse))) else ZERO
  {
    assert [main][1..] == [];
    if main in files {
      var lines := FileLines(files[main]);
      assert AllLines([main], files) == Tagged(main, lines);
      var tagged, plain := MergeAll(map[], Tagged(main, lines), parse), MergeMainAll(Parsed(lines, parse));
      forall id
        ensures (id in plain <==> (main, id) in tagged) && (id in plain ==> plain[id] == tagged[(main, id)])
      {
        MainTagged(main, lines, parse, id);
      }
      MainTagged(main, lines, parse, "");
      SumTagged(main, map k | k in plain :: plain[k].input, map k | k in tagged :: tagged[k].input);
      SumTagged(main, map k | k in plain :: plain[k].cacheCreation, map k | k in tagged :: tagged[k].cacheCreation);
      SumTagged(main, map k | k in plain :: plain[k].cacheRead, map k | k in tagged :: tagged[k].cacheRead);
      SumTagged(main, map k | k in plain :: plain[k].output, map k | k in tagged :: tagged[k].output);
    } else {
      assert AllLines([main], files) == [];
    }
  }

  function Restrict(messages: Messages, path: Path, inside: bool): Messages {
    map k | k in messages && (k.0 == path) == inside :: messages[k]
  }

  lemma TotalsSplit(messages: Messages, path: Path)
    ensures Totals(messages) == Plus(Totals(Restrict(messages, path, true)), Totals(Restrict(messages, path, false)))
  {
    hide Sum, Restrict;
    FreshInputSplits(messages, path);
    CachedInputSplits(messages, path);
    OutputSplits(messages, path);
  }

  lemma FreshInputSplits(messages: Messages, path: Path)
    ensures var i, o := Restrict(messages, path, true), Restrict(messages, path, false);
            Totals(messages).input == Totals(i).input + Totals(o).input
  {
    hide Sum;
    var i, o := Restrict(messages, path, true), Restrict(messages, path, false);
    SplitCounter(map k | k in messages :: messages[k].input, map k | k in i :: i[k].input,
                 map k | k in o :: o[k].input, set k | k in messages && k.0 == path);
  }

  lemma CachedInputSplits(messages: Messages, path: Path)
    ensures var i, o := Restrict(messages, path, true), Restrict(messages, path, false);
            && Totals(messages).cacheCreation == Totals(i).cacheCreation + Totals(o).cacheCreation
            && Totals(messages).cacheRead == Totals(i).cacheRead + Totals(o).cacheRead
  {
    hide Sum;
    var own := set k | k in messages && k.0 == path;
    var i, o := Restrict(messages, path, true), Restrict(messages, path, false);
    SplitCounter(map k | k in messages :: messages[k].cacheCreation, map k | k in i :: i[k].cacheCreation,
                 map k | k in o :: o[k].cacheCreation, own);
    SplitCounter(map k | k in messages :: messages[k].cacheRead, map k | k in i :: i[k].cacheRead,
                 map k | k in o :: o[k].cacheRead, own);
  }

  lemma OutputSplits(messages: Messages, path: Path)
    ensures var i, o := Restrict(messages, path, true), Restrict(messages, path, false);
            Totals(messages).output == Totals(i).output + Totals(o).output
  {
    hide Sum;
    var i, o := Restrict(messages, path, true), Restrict(messages, path, false);
    SplitCounter(map k | k in messages :: messages[k].output, map k | k in i :: i[k].output,
                 map k | k in o :: o[k].output, set k | k in messages && k.0 == path);
  }

  lemma SplitCounter(all: map<(Path, string), int>, inside: map<(Path, string), int>, outside: map<(Path, string), int>, own: set<(Path, string)>)
    requires own <= all.Keys && inside.Keys == own && outside.Keys == all.Keys - own
    requires forall k :: k in inside ==> inside[k] == all[k]
    requires forall k :: k in outside ==> outside[k] == all[k]
    ensures Sum(all) == Sum(inside) + Sum(outside)
  {
    hide Sum;
    SumPartition(all, own);
    assert inside == map k | k in all && k in own :: all[k];
    assert outside == map k | k in all && k !in own :: all[k];
  }

  lemma TotalsNonNegative(paths: seq<Path>, files: map<Path, string>, parse: Parser)
    ensures AtMost(ZERO, UsageOf(paths, files, parse))
  {
    var messages := MergeAll(map[], AllLines(paths, files), parse);
    forall k | k in messages ensures AtMost(ZERO, messages[k]) {
      MergedEntry(AllLines(paths, files), k.0, k.1, parse);
    }
    SumNonNegative(map k | k in messages :: messages[k].input);
    SumNonNegative(map k | k in messages :: messages[k].cacheCreation);
    SumNonNegative(map k | k in messages :: messages[k].cacheRead);
    SumNonNegative(map k | k in messages :: messages[k].output);
  }

  /** The dictionary of the whole session is those of its main and child transcripts side by side. */
  lemma EntrySplits(main: Path, children: seq<Path>, files: map<Path, string>, parse: Parser, p: Path, id: string)
    requires main !in children
    ensures var messages := MergeAll(map[], AllLines([main] + children, files), parse);
            var own := MergeAll(map[], AllLines([main], files), parse);
            var others := MergeAll(map[], AllLines(children, files), parse);
            && ((p, id) in own <==> (p, id) in messages && p == main)
            && ((p, id) in own ==> messages[(p, id)] == own[(p, id)])
            && ((p, id) in others <==> (p, id) in messages && p != main)
            && ((p, id) in others ==> messages[(p, id)] == others[(p, id)])
  {
    hide MergeAll, AllLines, Highest, Mentioned, HighestOf, Occurs, FileLines, Parsed;
    MergedEntry(AllLines([main] + children, files), p, id, parse);
    MergedEntry(AllLines([main], files), p, id, parse);
    MergedEntry(AllLines(children, files), p, id, parse);
    HighestInFile([main] + children, files, p, id, parse);
    HighestInFile([main], files, p, id, parse);
    HighestInFile(children, files, p, id, parse);
  }

  lemma SessionSplits(main: Path, children: seq<Path>, files: map<Path, string>, parse: Parser)
    requires main !in children
    ensures var messages := MergeAll(map[], AllLines([main] + children, files), parse);
            && Restrict(messages, main, true) == MergeAll(map[], AllLines([main], files), parse)
            && Restrict(messages, main, false) == MergeAll(map[], AllLines(children, files), parse)
  {
    var messages := MergeAll(map[], AllLines([main] + children, files), parse);
    var own := MergeAll(map[], AllLines([main], files), parse);
    var others := MergeAll(map[], AllLines(children, files), parse);
    hide MergeAll, AllLines;
    forall k: (Path, string)
      ensures k in own <==> k in messages && k.0 == main
      ensures k in own ==> messages[k] == own[k]
      ensures k in others <==> k in messages && k.0 != main
      ensures k in others ==> messages[k] == others[k]
    {
      assert k == (k.0, k.1);
      EntrySplits(main, children, files, parse, k.0, k.1);
    }
  }

  /** `_children_usage`: subtracting the main transcript from the session total gives exactly the
      usage of the child transcripts; the clamping in `minus` never takes effect. */
  lemma ChildrenUsageIsExact(main: Path, children: seq<Path>, files: map<Path, string>, parse: Parser)
    requires main !in children
    ensures Minus(UsageOf([main] + children, files, parse), UsageOf([main], files, parse))
         == UsageOf(children, files, parse)
    ensures UsageOf([main] + children, files, parse)
         == Plus(UsageOf([main], files, parse), UsageOf(children, files, parse))
  {
    hide *;
    SessionTotals(main, children, files, parse);
    TotalsNonNegative(children, files, parse);
    MinusOfPlus(UsageOf([main], files, parse), UsageOf(children, files, parse));
  }

  lemma SessionTotals(main: Path, children: seq<Path>, files: map<Path, string>, parse: Parser)
    requires main !in children
    ensures UsageOf([main] + children, files, parse)
         == Plus(UsageOf([main], files, parse), UsageOf(children, files, parse))
  {
    hide MergeAll, AllLines, Totals, Restrict, Plus;
    SessionSplits(main, children, files, parse);
    TotalsSplit(MergeAll(map[], AllLines([main] + children, files), parse), main);
  }

  lemma MinusOfPlus(a: Tokens, b: Tokens)
    requires AtMost(ZERO, b)
    ensures Minus(Plus(a, b), a) == b
  {
  }
}
