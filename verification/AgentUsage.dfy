/** The second, independently written accounting: a full rescan of the same transcripts. */
module AgentUsage {
  import opened Transcript
  import opened Sums
  import opened Wrappers

  type Path = string
  type Messages = map<(Path, string), Tokens>

  // ---------------------------------------------------------------- TokenUsage

  const ZERO := Tokens(0, 0, 0, 0)

  /** `_integer`: negative counters count as nothing. */
  function Clamp(t: Tokens): Tokens {
    Tokens(Max(0, t.input), Max(0, t.cacheCreation), Max(0, t.cacheRead), Max(0, t.output))
  }

  function MaxTokens(a: Tokens, b: Tokens): Tokens {
    Tokens(Max(a.input, b.input), Max(a.cacheCreation, b.cacheCreation),
           Max(a.cacheRead, b.cacheRead), Max(a.output, b.output))
  }

  function Plus(a: Tokens, b: Tokens): Tokens {
    Tokens(a.input + b.input, a.cacheCreation + b.cacheCreation, a.cacheRead + b.cacheRead, a.output + b.output)
  }

  /** `TokenUsage.minus`, clamped at zero in every counter. */
  function Minus(later: Tokens, earlier: Tokens): Tokens {
    Tokens(Max(0, later.input - earlier.input), Max(0, later.cacheCreation - earlier.cacheCreation),
           Max(0, later.cacheRead - earlier.cacheRead), Max(0, later.output - earlier.output))
  }

  predicate AtMost(a: Tokens, b: Tokens) {
    a.input <= b.input && a.cacheCreation <= b.cacheCreation && a.cacheRead <= b.cacheRead && a.output <= b.output
  }

  // ---------------------------------------------------------------- lines as the rescan splits them

  /** Reading in text mode: `\r\n` and `\r` arrive as newlines. */
  function Translated(s: string): string {
    if s == "" then ""
    else if s[0] == '\r' then "\n" + Translated(if |s| > 1 && s[1] == '\n' then s[2..] else s[1..])
    else [s[0]] + Translated(s[1..])
  }

  /** `str.splitlines` breaks at more than the newline `readline` stops at. Translated text has no
      carriage returns. */
  predicate Breaks(c: char) {
    || '\n' <= c <= '\U{C}'
    || '\U{1C}' <= c <= '\U{1E}'
    || c == '\U{85}'
    || c == '\U{2028}'
    || c == '\U{2029}'
  }

  function TextEnd(s: string, from: nat): (end: nat)
    requires from <= |s|
    ensures from <= end <= |s|
    ensures forall i :: from <= i < end ==> !Breaks(s[i])
    ensures end < |s| ==> Breaks(s[end])
    decreases |s| - from
  {
    if from == |s| || Breaks(s[from]) then from else TextEnd(s, from + 1)
  }

  lemma {:induction false} TextEndAt(t: string, from: nat, end: nat)
    requires from <= end < |t| && Breaks(t[end]) && forall i :: from <= i < end ==> !Breaks(t[i])
    ensures TextEnd(t, from) == end
    decreases end - from
  {
    if from < end {
      TextEndAt(t, from + 1, end);
    }
  }

  /** `s[from..].splitlines()`; an unfinished last line is included. */
  function TextLines(s: string, from: nat): seq<string>
    requires from <= |s|
    decreases |s| - from
  {
    if from == |s| then [] else
    var end := TextEnd(s, from);
    [s[from..end]] + if end < |s| then TextLines(s, end + 1) else []
  }

  /** The lines the rescan sees of a file with this content. */
  function FileLines(content: string): seq<string> {
    TextLines(Translated(content), 0)
  }

  /** The lines of all files, each with its path, in reading order; missing files are skipped. */
  function AllLines(paths: seq<Path>, files: map<Path, string>): seq<(Path, string)> {
    if paths == [] then []
    else (if paths[0] in files then Tagged(paths[0], FileLines(files[paths[0]])) else [])
         + AllLines(paths[1..], files)
  }

  function Tagged(path: Path, lines: seq<string>): (r: seq<(Path, string)>)
    ensures |r| == |lines| && forall i :: 0 <= i < |r| ==> r[i] == (path, lines[i])
  {
    seq(|lines|, i requires 0 <= i < |lines| => (path, lines[i]))
  }

  // ---------------------------------------------------------------- the dictionary of maxima

  function TokensOf(record: Record): Tokens {
    if record.Message? then Clamp(record.tokens) else ZERO
  }

  function Merge(messages: Messages, path: Path, record: Record): Messages {
    if !record.Message? && !record.Blank? then messages else
    var key := (path, record.id);
    messages[key := MaxTokens(if key in messages then messages[key] else ZERO, TokensOf(record))]
  }

  function MergeAll(messages: Messages, lines: seq<(Path, string)>, parse: Parser): Messages {
    if lines == [] then messages
    else Merge(MergeAll(messages, lines[..|lines| - 1], parse), lines[|lines| - 1].0, parse(lines[|lines| - 1].1))
  }

  ghost function Totals(messages: Messages): Tokens {
    Tokens(Sum(map k | k in messages :: messages[k].input),
           Sum(map k | k in messages :: messages[k].cacheCreation),
           Sum(map k | k in messages :: messages[k].cacheRead),
           Sum(map k | k in messages :: messages[k].output))
  }

  /** What `transcript_usage` reports. */
  ghost function UsageOf(paths: seq<Path>, files: map<Path, string>, parse: Parser): Tokens {
    Totals(MergeAll(map[], AllLines(paths, files), parse))
  }

  lemma MergeStep(messages: Messages, lines: seq<(Path, string)>, path: Path, line: string, parse: Parser)
    ensures MergeAll(messages, lines + [(path, line)], parse)
         == Merge(MergeAll(messages, lines, parse), path, parse(line))
  {
    assert (lines + [(path, line)])[..|lines + [(path, line)]| - 1] == lines;
  }

  lemma AllLinesStep(paths: seq<Path>, files: map<Path, string>, i: nat)
    requires i < |paths|
    ensures AllLines(paths[i..], files)
         == (if paths[i] in files then Tagged(paths[i], FileLines(files[paths[i]])) else [])
            + AllLines(paths[i + 1..], files)
  {
    assert paths[i..][1..] == paths[i + 1..];
  }

  lemma {:induction false} MergeConcat(messages: Messages, a: seq<(Path, string)>, b: seq<(Path, string)>, parse: Parser)
    ensures MergeAll(messages, a + b, parse) == MergeAll(MergeAll(messages, a, parse), b, parse)
  {
    if b == [] {
      assert a + b == a;
    } else {
      var n := |b| - 1;
      assert (a + b)[..|a + b| - 1] == a + b[..n];
      MergeConcat(messages, a, b[..n], parse);
    }
  }

  // ---------------------------------------------------------------- the rescan

  /** Some record's fields cannot be read: the rescan raises when it comes to it. */
  predicate Raises(lines: seq<string>, parse: Parser) {
    exists j :: 0 <= j < |lines| && parse(lines[j]).Broken?
  }

  predicate AnyRaises(paths: seq<Path>, files: map<Path, string>, parse: Parser) {
    exists i :: 0 <= i < |paths| && paths[i] in files && Raises(FileLines(files[paths[i]]), parse)
  }

  method TranscriptUsage(paths: seq<Path>, files: map<Path, string>, parse: Parser) returns (total: Option<Tokens>)
    ensures total == if AnyRaises(paths, files, parse) then None else Some(UsageOf(paths, files, parse))
  {
    hide Raises;
    var messages: Messages := map[];
    var i := 0;
    while i < |paths|
      invariant 0 <= i <= |paths|
      invariant forall k :: 0 <= k < i && paths[k] in files ==> !Raises(FileLines(files[paths[k]]), parse)
      invariant MergeAll(messages, AllLines(paths[i..], files), parse) == MergeAll(map[], AllLines(paths, files), parse)
    {
      AllLinesStep(paths, files, i);
      if paths[i] in files {
        var lines := FileLines(files[paths[i]]);
        MergeConcat(messages, Tagged(paths[i], lines), AllLines(paths[i + 1..], files), parse);
        var merged := MergeFile(messages, paths[i], lines, parse);
        if merged.None? {
          return None;
        }
        messages := merged.value;
      } else {
        assert [] + AllLines(paths[i + 1..], files) == AllLines(paths[i + 1..], files);
      }
      i := i + 1;
    }
    var sum := SumUp(messages);
    total := Some(sum);
  }

  /** The inner loop: all lines of one file. */
  method MergeFile(messages: Messages, path: Path, lines: seq<string>, parse: Parser) returns (merged: Option<Messages>)
    ensures merged == if Raises(lines, parse) then None else Some(MergeAll(messages, Tagged(path, lines), parse))
  {
    var updated := messages;
    ghost var tagged := Tagged(path, lines);
    for j := 0 to |lines|
      invariant updated == MergeAll(messages, tagged[..j], parse)
      invariant forall k :: 0 <= k < j ==> !parse(lines[k]).Broken?
    {
      MergeStep(messages, tagged[..j], path, lines[j], parse);
      assert tagged[..j + 1] == tagged[..j] + [(path, lines[j])];
      var record := parse(lines[j]);
      if record.Broken? {
        return None;
      }
      updated := Merged(updated, path, record);
    }
    assert tagged[..|lines|] == tagged;
    merged := Some(updated);
  }

  /** The four sums at the end. */
  method SumUp(messages: Messages) returns (total: Tokens)
    ensures total == Totals(messages)
    ensures total.input == Sum(map k | k in messages :: messages[k].input)
    ensures total.cacheCreation == Sum(map k | k in messages :: messages[k].cacheCreation)
    ensures total.cacheRead == Sum(map k | k in messages :: messages[k].cacheRead)
    ensures total.output == Sum(map k | k in messages :: messages[k].output)
  {
    var input := Total(map k | k in messages :: messages[k].input);
    var cacheCreation := Total(map k | k in messages :: messages[k].cacheCreation);
    var cacheRead := Total(map k | k in messages :: messages[k].cacheRead);
    var output := Total(map k | k in messages :: messages[k].output);
    total := Tokens(input, cacheCreation, cacheRead, output);
  }

  /** The loop body: one record into the dictionary. */
  method Merged(messages: Messages, path: Path, record: Record) returns (updated: Messages)
    ensures updated == Merge(messages, path, record)
    // a record without a message id changes nothing
    ensures !record.Message? && !record.Blank? ==> updated == messages
    // any other touches its own entry only, which becomes the least that is at least both
    ensures record.Message? || record.Blank? ==>
              && updated.Keys == messages.Keys + {(path, record.id)}
              && (forall k :: k in messages && k != (path, record.id) ==> updated[k] == messages[k])
              && AtMost(TokensOf(record), updated[(path, record.id)])
              && ((path, record.id) in messages ==> AtMost(messages[(path, record.id)], updated[(path, record.id)]))
              && forall t | AtMost(ZERO, t) && AtMost(TokensOf(record), t) ::
                   ((path, record.id) in messages ==> AtMost(messages[(path, record.id)], t)) ==> AtMost(updated[(path, record.id)], t)
  {
    updated := messages;
    if record.Message? || record.Blank? {
      var current := TokensOf(record);
      var key := (path, record.id);
      var previous := if key in messages then messages[key] else ZERO;
      updated := messages[key := Tokens(
        Max(previous.input, current.input), Max(previous.cacheCreation, current.cacheCreation),
        Max(previous.cacheRead, current.cacheRead), Max(previous.output, current.output))];
    }
  }

  // ---------------------------------------------------------------- reference: per-message maxima

  predicate Mentions(tagged: (Path, string), path: Path, id: string, parse: Parser) {
    tagged.0 == path && (parse(tagged.1).Message? || parse(tagged.1).Blank?) && parse(tagged.1).id == id
  }

  /** The componentwise maximum over the records of one message. */
  function Highest(lines: seq<(Path, string)>, path: Path, id: string, parse: Parser): Tokens {
    if lines == [] then ZERO else
    var before := Highest(lines[..|lines| - 1], path, id, parse);
    var last := lines[|lines| - 1];
    if Mentions(last, path, id, parse) then MaxTokens(before, TokensOf(parse(last.1))) else before
  }

  predicate Mentioned(lines: seq<(Path, string)>, path: Path, id: string, parse: Parser) {
    exists i :: 0 <= i < |lines| && Mentions(lines[i], path, id, parse)
  }

  lemma MentionedStep(lines: seq<(Path, string)>, last: (Path, string), path: Path, id: string, parse: Parser)
    ensures Mentioned(lines + [last], path, id, parse)
            <==> Mentioned(lines, path, id, parse) || Mentions(last, path, id, parse)
  {
    hide Mentions;
    var longer := lines + [last];
    assert longer[|lines|] == last;
    forall i | 0 <= i < |lines| ensures longer[i] == lines[i] {
    }
    if Mentioned(lines, path, id, parse) {
      var i :| 0 <= i < |lines| && Mentions(lines[i], path, id, parse);
      assert Mentions(longer[i], path, id, parse);
    }
  }

  /** The dictionary holds an entry for exactly the messages that occur, with their maxima. */
  lemma {:induction false} MergedEntry(lines: seq<(Path, string)>, path: Path, id: string, parse: Parser)
    ensures var messages := MergeAll(map[], lines, parse);
            && ((path, id) in messages <==> Mentioned(lines, path, id, parse))
            && (if (path, id) in messages then messages[(path, id)] else ZERO) == Highest(lines, path, id, parse)
            && AtMost(ZERO, Highest(lines, path, id, parse))
  {
    if lines != [] {
      var before, last := lines[..|lines| - 1], lines[|lines| - 1];
      MergedEntry(before, path, id, parse);
      assert lines == before + [last];
      MentionedStep(before, last, path, id, parse);
      hide Mentioned;
    }
  }
}
