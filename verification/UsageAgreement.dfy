/** The rescan seen message by message, and its agreement with the incremental budget. */
module UsageAgreement {
  import opened Transcript
  import opened Sums
  import Sequences
  import opened AgentUsage
  import Budget = ClaudeBudget

  // ---------------------------------------------------------------- the two ways to split lines

  /** The complete lines `readline` returns, without their newline. */
  function BareLines(s: string, from: nat): seq<string>
    requires from <= |s|
    decreases |s| - from
  {
    if !HasLine(s, from) then [] else
    [s[from..LineEnd(s, from) - 1]] + BareLines(s, LineEnd(s, from))
  }

  predicate NewlineTerminated(s: string) {
    s == "" || s[|s| - 1] == '\n'
  }

  /** From `from` on only newlines break lines of the text. */
  predicate BreaksAtNewlines(s: string, from: nat) {
    forall i :: from <= i < |s| && Breaks(s[i]) ==> s[i] == '\n'
  }

  lemma TextEndStops(s: string, from: nat, i: nat)
    requires from <= i < |s| && Breaks(s[i])
    ensures TextEnd(s, from) <= i
  {
  }

  lemma EndsInNewline(s: string, from: nat)
    requires from < |s| && NewlineTerminated(s)
    ensures HasLine(s, from) && s[LineEnd(s, from) - 1] == '\n'
  {
  }

  lemma TextLinesUnfold(s: string, from: nat)
    requires from < |s| && TextEnd(s, from) < |s|
    ensures TextLines(s, from) == [s[from..TextEnd(s, from)]] + TextLines(s, TextEnd(s, from) + 1)
  {
    hide TextEnd;
  }

  lemma BareLinesUnfold(s: string, from: nat)
    requires from <= |s| && HasLine(s, from)
    ensures BareLines(s, from) == [s[from..LineEnd(s, from) - 1]] + BareLines(s, LineEnd(s, from))
  {
    hide LineEnd;
  }

  /** Both splitters, one line further. */
  lemma FirstLines(s: string, from: nat)
    requires from < |s| && NewlineTerminated(s)
    ensures HasLine(s, from) && TextEnd(s, from) < LineEnd(s, from)
    ensures TextLines(s, from) == [s[from..TextEnd(s, from)]] + TextLines(s, TextEnd(s, from) + 1)
    ensures BareLines(s, from) == [s[from..LineEnd(s, from) - 1]] + BareLines(s, LineEnd(s, from))
  {
    EndsInNewline(s, from);
    NewlineBreaks();
    hide TextLines, BareLines, TextEnd, LineEnd, Breaks;
    TextEndStops(s, from, LineEnd(s, from) - 1);
    TextLinesUnfold(s, from);
    BareLinesUnfold(s, from);
  }

  lemma NewlineBreaks()
    ensures Breaks('\n')
  {
  }

  lemma FirstBreak(s: string, from: nat, end: nat, next: nat)
    requires from <= end < next <= |s| && Breaks(s[end]) && s[next - 1] == '\n'
    requires forall i :: from <= i < end ==> !Breaks(s[i])
    requires forall i :: from <= i < next - 1 ==> s[i] != '\n'
    ensures end == next - 1 ==> (BreaksAtNewlines(s, from) <==> BreaksAtNewlines(s, next))
    ensures end != next - 1 ==> !BreaksAtNewlines(s, from)
  {
    hide Breaks;
  }

  lemma FirstLineDecides(s: string, from: nat)
    requires from < |s| && NewlineTerminated(s)
    ensures var end, next := TextEnd(s, from), LineEnd(s, from);
            && from < next
            && (if end == next - 1
                then (TextLines(s, from) == BareLines(s, from) <==> TextLines(s, next) == BareLines(s, next))
                else TextLines(s, from) != BareLines(s, from))
            && if end == next - 1
               then (BreaksAtNewlines(s, from) <==> BreaksAtNewlines(s, next))
               else !BreaksAtNewlines(s, from)
  {
    hide TextLines, BareLines, BreaksAtNewlines, TextEnd, LineEnd, HasLine, Breaks;
    var end, next := TextEnd(s, from), LineEnd(s, from);
    FirstLines(s, from);
    FirstBreak(s, from, end, next);
    Sequences.ConsEqual(s[from..end], TextLines(s, end + 1), s[from..next - 1], BareLines(s, next));
    assert |s[from..end]| == end - from && |s[from..next - 1]| == next - 1 - from;
  }

  lemma {:induction false} SameTextIff(s: string, from: nat)
    requires from <= |s| && NewlineTerminated(s)
    ensures TextLines(s, from) == BareLines(s, from) <==> BreaksAtNewlines(s, from)
    decreases |s| - from
  {
    if from < |s| {
      hide TextLines, BareLines, BreaksAtNewlines, TextEnd, LineEnd, HasLine, Breaks;
      FirstLineDecides(s, from);
      SameTextIff(s, LineEnd(s, from));
    }
  }

  lemma {:induction false} TranslatedPlain(s: string)
    requires '\r' !in s
    ensures Translated(s) == s
  {
    if s != "" {
      assert s == [s[0]] + s[1..];
      TranslatedPlain(s[1..]);
    }
  }

  lemma {:induction false} TranslatedReturns(s: string)
    ensures '\r' !in Translated(s)
    decreases |s|
  {
    if s != "" {
      TranslatedReturns(if s[0] == '\r' && |s| > 1 && s[1] == '\n' then s[2..] else s[1..]);
    }
  }

  lemma SliceLacksReturns(s: string, from: nat, end: nat)
    requires from <= end <= |s| && '\r' !in s
    ensures '\r' !in s[from..end]
  {
  }

  lemma {:induction false} LinesAreParts(s: string, from: nat, line: string)
    requires from <= |s| && line in TextLines(s, from) && '\r' !in s
    ensures '\r' !in line
    decreases |s| - from
  {
    hide TextEnd, Breaks;
    var end := TextEnd(s, from);
    SliceLacksReturns(s, from, end);
    if line != s[from..end] {
      LinesAreParts(s, end + 1, line);
    }
  }

  lemma ReturnInFirst(s: string, from: nat, i: nat)
    requires from <= i < |s| && s[i] == '\r' && HasLine(s, from) && i < LineEnd(s, from)
    ensures '\r' in s[from..LineEnd(s, from) - 1]
  {
    var end := LineEnd(s, from);
    hide LineEnd;
    assert s[end - 1] == '\n';
    assert s[from..end - 1][i - from] == s[i];
  }

  /** A carriage return of a newline-terminated file is in one of its lines. */
  lemma {:induction false} BareLinesHold(s: string, from: nat, i: nat) returns (line: string)
    requires from <= i < |s| && NewlineTerminated(s) && s[i] == '\r'
    ensures line in BareLines(s, from) && '\r' in line
    decreases |s| - from
  {
    hide *;
    FirstLines(s, from);
    var end := LineEnd(s, from);
    if i < end {
      ReturnInFirst(s, from, i);
      line := s[from..end - 1];
    } else {
      line := BareLinesHold(s, end, i);
    }
  }

  /** The characters beside the newline at which text mode or `splitlines` ends a line. */
  const OTHER_SEPARATORS := {'\r', '\U{B}', '\U{C}', '\U{1C}', '\U{1D}', '\U{1E}', '\U{85}', '\U{2028}', '\U{2029}'}

  /** Newlines are the only line separators of any kind, carriage returns included. */
  predicate OnlyNewlines(s: string) {
    forall i :: 0 <= i < |s| ==> s[i] !in OTHER_SEPARATORS
  }

  lemma SeparatorsAre(c: char)
    ensures c in OTHER_SEPARATORS <==> c == '\r' || (Breaks(c) && c != '\n')
  {
    assert '\U{1C}' <= c <= '\U{1E}' ==> c as int == 0x1C || c as int == 0x1D || c as int == 0x1E;
    assert '\n' <= c <= '\U{C}' ==> c as int == 10 || c as int == 11 || c as int == 12;
  }

  lemma OnlyNewlinesBreak(s: string)
    ensures OnlyNewlines(s) <==> '\r' !in s && BreaksAtNewlines(s, 0)
  {
    forall i | 0 <= i < |s| ensures s[i] in OTHER_SEPARATORS <==> s[i] == '\r' || (Breaks(s[i]) && s[i] != '\n') {
      SeparatorsAre(s[i]);
    }
    hide Breaks;
  }

  /** On a newline-terminated transcript the rescan sees the lines the budget sees exactly when no
      other line separator occurs in it, be it a carriage return or, say, a raw U+2028 inside a JSON
      string. */
  lemma SameLinesIff(s: string)
    requires NewlineTerminated(s)
    ensures FileLines(s) == BareLines(s, 0) <==> OnlyNewlines(s)
  {
    OnlyNewlinesBreak(s);
    hide OnlyNewlines;
    if '\r' in s {
      var i :| 0 <= i < |s| && s[i] == '\r';
      var line := BareLinesHold(s, 0, i);
      TranslatedReturns(s);
      if line in FileLines(s) {
        LinesAreParts(Translated(s), 0, line);
      }
    } else {
      TranslatedPlain(s);
      SameTextIff(s, 0);
      hide TextLines, BareLines, Breaks;
    }
  }

  /** The JSON decoder does not mind the newline at the end of a record. */
  ghost predicate IgnoresNewline(parse: Parser) {
    forall line :: parse(line + "\n") == parse(line)
  }

  function Parsed(lines: seq<string>, parse: Parser): (r: seq<Record>)
    ensures |r| == |lines| && forall i :: 0 <= i < |r| ==> r[i] == parse(lines[i])
  {
    seq(|lines|, i requires 0 <= i < |lines| => parse(lines[i]))
  }

  lemma {:induction false} RecordsAreBareLines(s: string, from: nat, parse: Parser)
    requires from <= |s| && IgnoresNewline(parse)
    ensures Records(s, from, parse) == Parsed(BareLines(s, from), parse)
    decreases |s| - from
  {
    if HasLine(s, from) {
      var end := LineEnd(s, from);
      RecordsAreBareLines(s, end, parse);
      assert s[from..end] == s[from..end - 1] + "\n";
    }
  }

  // ---------------------------------------------------------------- one message of one file

  function HighestOf(records: seq<Record>, id: string): Tokens {
    if records == [] then ZERO else
    var before, last := HighestOf(records[..|records| - 1], id), records[|records| - 1];
    if (last.Message? || last.Blank?) && last.id == id then MaxTokens(before, TokensOf(last)) else before
  }

  predicate Occurs(records: seq<Record>, id: string) {
    exists i :: 0 <= i < |records| && (records[i].Message? || records[i].Blank?) && records[i].id == id
  }

  lemma {:induction false} HighestConcat(a: seq<(Path, string)>, b: seq<(Path, string)>, path: Path, id: string, parse: Parser)
    ensures Highest(a + b, path, id, parse) == MaxTokens(Highest(a, path, id, parse), Highest(b, path, id, parse))
  {
    if b == [] {
      assert a + b == a;
      MergedEntry(a, path, id, parse);
    } else {
      var n := |b| - 1;
      assert (a + b)[..|a + b| - 1] == a + b[..n];
      HighestConcat(a, b[..n], path, id, parse);
    }
  }

  lemma MentionedConcat(a: seq<(Path, string)>, b: seq<(Path, string)>, path: Path, id: string, parse: Parser)
    ensures Mentioned(a + b, path, id, parse) <==> Mentioned(a, path, id, parse) || Mentioned(b, path, id, parse)
  {
    hide Mentions;
    var both := a + b;
    forall i | 0 <= i < |a| ensures both[i] == a[i] {}
    forall i | 0 <= i < |b| ensures both[|a| + i] == b[i] {}
    if Mentioned(a, path, id, parse) {
      var i :| 0 <= i < |a| && Mentions(a[i], path, id, parse);
      assert Mentions(both[i], path, id, parse);
    }
    if Mentioned(b, path, id, parse) {
      var i :| 0 <= i < |b| && Mentions(b[i], path, id, parse);
      assert Mentions(both[|a| + i], path, id, parse);
    }
  }

  lemma {:induction false} HighestTagged(file: Path, lines: seq<string>, path: Path, id: string, parse: Parser)
    ensures Highest(Tagged(file, lines), path, id, parse)
         == if file == path then HighestOf(Parsed(lines, parse), id) else ZERO
    ensures Mentioned(Tagged(file, lines), path, id, parse) <==> file == path && Occurs(Parsed(lines, parse), id)
  {
    if lines != [] {
      var n := |lines| - 1;
      HighestTagged(file, lines[..n], path, id, parse);
      assert Tagged(file, lines)[..n] == Tagged(file, lines[..n]);
      assert Parsed(lines, parse)[..n] == Parsed(lines[..n], parse);
    }
    MentionedTagged(file, lines, path, id, parse);
  }

  lemma MentionedTagged(file: Path, lines: seq<string>, path: Path, id: string, parse: Parser)
    ensures Mentioned(Tagged(file, lines), path, id, parse) <==> file == path && Occurs(Parsed(lines, parse), id)
  {
    var tagged, records := Tagged(file, lines), Parsed(lines, parse);
    if Mentioned(tagged, path, id, parse) {
      var i :| 0 <= i < |tagged| && Mentions(tagged[i], path, id, parse);
      assert records[i].id == id;
    }
    if file == path && Occurs(records, id) {
      var i :| 0 <= i < |records| && (records[i].Message? || records[i].Blank?) && records[i].id == id;
      assert Mentions(tagged[i], path, id, parse);
    }
  }

  /** The entry of the dictionary for a message depends on its own file only. */
  lemma {:induction false} HighestInFile(paths: seq<Path>, files: map<Path, string>, path: Path, id: string, parse: Parser)
    ensures var read := path in paths && path in files;
            && Highest(AllLines(paths, files), path, id, parse)
               == (if read then HighestOf(Parsed(FileLines(files[path]), parse), id) else ZERO)
            && (Mentioned(AllLines(paths, files), path, id, parse)
                <==> read && Occurs(Parsed(FileLines(files[path]), parse), id))
  {
    if paths != [] {
      hide HighestOf, Occurs, FileLines, Parsed, Highest, Mentioned, MaxTokens, AtMost;
      var file, rest := paths[0], AllLines(paths[1..], files);
      var first := if file in files then Tagged(file, FileLines(files[file])) else [];
      HighestInFile(paths[1..], files, path, id, parse);
      HighestConcat(first, rest, path, id, parse);
      MentionedConcat(first, rest, path, id, parse);
      MergedEntry(first, path, id, parse);
      MergedEntry(rest, path, id, parse);
      NoLines(path, id, parse);
      if file in files {
        HighestTagged(file, FileLines(files[file]), path, id, parse);
      }
      AtMostItself(Highest(first, path, id, parse));
      AtMostItself(Highest(rest, path, id, parse));
    }
  }

  lemma NoLines(path: Path, id: string, parse: Parser)
    ensures Highest([], path, id, parse) == ZERO && !Mentioned([], path, id, parse)
  {
  }

  lemma AtMostItself(t: Tokens)
    requires AtMost(ZERO, t)
    ensures MaxTokens(t, t) == t && MaxTokens(ZERO, t) == t == MaxTokens(t, ZERO)
  {
  }

  // ---------------------------------------------------------------- maximum of sums, sum of maxima

  function AllInputs(t: Tokens): int {
    t.input + t.cacheCreation + t.cacheRead
  }

  /** One message as both accountings see it: equal outputs, and inputs at most the sum of the
      separate maxima. */
  predicate Matches(peak: Budget.Peak, highest: Tokens) {
    && AtMost(ZERO, highest)
    && (peak.Unseen? ==> highest == ZERO)
    && (peak.Seen? ==> peak.outputs == highest.output && peak.inputs <= AllInputs(highest))
  }

  lemma MatchesStep(peak: Budget.Peak, highest: Tokens, t: Tokens)
    requires Matches(peak, highest)
    ensures Matches(Budget.Join(peak, Budget.Seen(Max(0, Budget.Inputs(t)), Max(0, t.output))),
                    MaxTokens(highest, Clamp(t)))
    ensures MaxTokens(highest, ZERO) == highest
  {
  }

  lemma AccountStep(before: seq<Record>, last: Record, id: string)
    requires Matches(Budget.PeakOf(before, id), HighestOf(before, id))
    ensures Matches(Budget.PeakOf(before + [last], id), HighestOf(before + [last], id))
  {
    hide Matches, MaxTokens, Clamp, Budget.Join, Max, Budget.Inputs;
    assert (before + [last])[..|before + [last]| - 1] == before;
    MatchesStep(Budget.PeakOf(before, id), HighestOf(before, id), if last.Message? then last.tokens else ZERO);
  }

  lemma {:induction false} PeakAtMostHighest(records: seq<Record>, id: string)
    ensures Matches(Budget.PeakOf(records, id), HighestOf(records, id))
  {
    if records != [] {
      var before, last := records[..|records| - 1], records[|records| - 1];
      PeakAtMostHighest(before, id);
      AccountStep(before, last, id);
      assert before + [last] == records;
    }
  }

  /** Repeated records of the message have non-negative counters and only ever grow or shrink
      together. */
  predicate Ordered(records: seq<Record>, id: string) {
    && (forall i :: 0 <= i < |records| && Budget.Counts(records[i], id) ==> AtMost(ZERO, records[i].tokens))
    && (forall i, j | 0 <= i < |records| && 0 <= j < |records| ::
          Budget.Counts(records[i], id) && Budget.Counts(records[j], id) ==>
            AtMost(records[i].tokens, records[j].tokens) || AtMost(records[j].tokens, records[i].tokens))
  }

  lemma {:induction false} OrderedTop(records: seq<Record>, id: string) returns (top: nat)
    requires Ordered(records, id) && Budget.PeakOf(records, id).Seen?
    ensures top < |records| && Budget.Counts(records[top], id) && records[top].tokens == HighestOf(records, id)
  {
    hide Matches, MaxTokens, Clamp, AtMost, Budget.Join, Max, Budget.Inputs;
    var n := |records| - 1;
    var before := records[..n];
    PeakAtMostHighest(before, id);
    forall i | 0 <= i < n ensures before[i] == records[i] {}
    assert Ordered(before, id);
    top := n;
    NotSeen(Budget.PeakOf(before, id), HighestOf(before, id));
    if Budget.PeakOf(before, id).Seen? {
      var inner := OrderedTop(before, id);
      if !Budget.Counts(records[n], id) {
        top := inner;
      } else if AtMost(records[n].tokens, records[inner].tokens) {
        top := inner;
        TopStays(records[inner].tokens, records[n].tokens);
      } else {
        TopMoves(records[inner].tokens, records[n].tokens);
      }
    } else {
      TopMoves(ZERO, records[n].tokens);
    }
  }

  lemma NotSeen(peak: Budget.Peak, highest: Tokens)
    requires Matches(peak, highest)
    ensures peak.Unseen? ==> highest == ZERO
    ensures MaxTokens(highest, ZERO) == highest
  {
  }

  lemma TopStays(top: Tokens, t: Tokens)
    requires AtMost(ZERO, t) && AtMost(t, top)
    ensures MaxTokens(top, Clamp(t)) == top
  {
  }

  lemma TopMoves(top: Tokens, t: Tokens)
    requires AtMost(ZERO, t) && AtMost(top, t)
    ensures MaxTokens(top, Clamp(t)) == t
  {
  }

  lemma OrderedPeak(records: seq<Record>, id: string)
    requires Ordered(records, id) && Budget.PeakOf(records, id).Seen?
    ensures Budget.PeakOf(records, id).inputs == AllInputs(HighestOf(records, id))
  {
    PeakAtMostHighest(records, id);
    var top := OrderedTop(records, id);
    Budget.PeakIsMaximum(records, id);
    assert Budget.Inputs(records[top].tokens) <= Budget.PeakOf(records, id).inputs;
  }
}
