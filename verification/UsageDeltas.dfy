/** Per-invocation deltas between snapshots of a growing session: tokens, tool calls, children. */
module UsageDeltas {
  import opened Transcript
  import opened Sums
  import opened AgentUsage
  import opened UsageAgreement
  import opened UsageTotals

  /** What one rescan looks at. */
  datatype Session = Session(paths: seq<Path>, files: map<Path, string>)

  // ---------------------------------------------------------------- growth, seen by the rescan

  /** No record of `s` changes when it grows to `t`: all its lines are lines of `t`, the last one
      too, or the last one is half a record and decodes to nothing. */
  predicate Settles(s: string, t: string, parse: Parser) {
    FileLines(s) <= FileLines(t)
    || (FileLines(s) != [] && parse(FileLines(s)[|FileLines(s)| - 1]).Ignored?)
  }

  /** The session grew: transcripts stay listed and only get longer. */
  predicate Grew(before: Session, after: Session, parse: Parser) {
    forall p :: p in before.paths && p in before.files ==>
      && p in after.paths && p in after.files
      && before.files[p] <= after.files[p] && Settles(before.files[p], after.files[p], parse)
  }

  /** Translation can be done while the file grows. */
  lemma {:induction false} TranslationGrows(s: string, t: string)
    requires s <= t
    ensures Translated(s) <= Translated(t)
    decreases |s|
  {
    if s != "" {
      if s[0] == '\r' && |s| > 1 && s[1] == '\n' {
        TranslationGrows(s[2..], t[2..]);
      } else if s[0] == '\r' && |s| == 1 {
        assert s[1..] == "" && Translated(s) == "\n";
      } else {
        TranslationGrows(s[1..], t[1..]);
      }
    }
  }

  lemma {:induction false} TextEndStable(s: string, t: string, from: nat)
    requires from <= |s| && s <= t && TextEnd(s, from) < |s|
    ensures TextEnd(t, from) == TextEnd(s, from)
    ensures t[from..TextEnd(t, from)] == s[from..TextEnd(s, from)]
    decreases |s| - from
  {
    if !Breaks(s[from]) {
      TextEndStable(s, t, from + 1);
    }
  }

  /** The last line of `s` goes on in `t`. */
  predicate Torn(s: string, t: string)
    requires s <= t
  {
    s != "" && !Breaks(s[|s| - 1]) && |s| < |t| && !Breaks(t[|s|])
  }

  /** `b` starts with all of `a`, or with all but its last line when that one is torn. */
  predicate Kept(a: seq<string>, b: seq<string>, torn: bool) {
    a <= b || (torn && a != [] && a[..|a| - 1] <= b)
  }

  lemma KeptCons(line: string, a: seq<string>, b: seq<string>, torn: bool)
    requires Kept(a, b, torn)
    ensures Kept([line] + a, [line] + b, torn)
  {
    if !(a <= b) {
      assert ([line] + a)[..|a|] == [line] + a[..|a| - 1];
    }
  }

  lemma KeptLast(line: string, b: seq<string>, rest: seq<string>)
    ensures Kept([line], b, true) && Kept([line], [line] + rest, false) && Kept([line], [line], false)
  {
    assert [line][..0] == [];
  }

  lemma KeptNothing(b: seq<string>, torn: bool)
    ensures Kept([], b, torn)
  {
  }

  lemma LinesUnfold(s: string, from: nat)
    requires from < |s|
    ensures TextEnd(s, from) < |s| ==>
              TextLines(s, from) == [s[from..TextEnd(s, from)]] + TextLines(s, TextEnd(s, from) + 1)
    ensures TextEnd(s, from) == |s| ==> TextLines(s, from) == [s[from..]] && !Breaks(s[|s| - 1])
  {
    assert s[from..|s|] == s[from..];
    assert [s[from..]] + [] == [s[from..]];
  }

  /** One common line further up. */
  lemma GrowStep(s: string, t: string, from: nat)
    requires from < |s| && s <= t && TextEnd(s, from) < |s|
    requires Kept(TextLines(s, TextEnd(s, from) + 1), TextLines(t, TextEnd(s, from) + 1), Torn(s, t))
    ensures Kept(TextLines(s, from), TextLines(t, from), Torn(s, t))
  {
    hide *;
    TextEndStable(s, t, from);
    LinesUnfold(s, from);
    LinesUnfold(t, from);
    KeptCons(s[from..TextEnd(s, from)], TextLines(s, TextEnd(s, from) + 1), TextLines(t, TextEnd(s, from) + 1), Torn(s, t));
  }

  lemma GrowLast(s: string, t: string, from: nat)
    requires from < |s| && s <= t && TextEnd(s, from) == |s|
    ensures Kept(TextLines(s, from), TextLines(t, from), Torn(s, t))
  {
    var line := s[from..];
    LinesUnfold(s, from);
    hide TextLines, Kept, Breaks;
    if |t| == |s| {
      assert t == s;
      KeptLast(line, [], []);
    } else if Breaks(t[|s|]) {
      TextEndAt(t, from, |s|);
      LinesUnfold(t, from);
      assert t[from..|s|] == line;
      KeptLast(line, [], TextLines(t, |s| + 1));
    } else {
      KeptLast(line, TextLines(t, from), []);
    }
  }

  /** All lines but a torn last one are still there after the file grew. */
  lemma {:induction false} LinesGrow(s: string, t: string, from: nat)
    requires from <= |s| && s <= t
    ensures Kept(TextLines(s, from), TextLines(t, from), Torn(s, t))
    decreases |s| - from
  {
    hide Kept, Breaks, Torn;
    if from == |s| {
      KeptNothing(TextLines(t, from), Torn(s, t));
    } else if TextEnd(s, from) < |s| {
      hide TextLines, TextEnd;
      LinesGrow(s, t, TextEnd(s, from) + 1);
      GrowStep(s, t, from);
    } else {
      hide TextLines, TextEnd;
      GrowLast(s, t, from);
    }
  }

  lemma FileLinesGrow(s: string, t: string)
    requires s <= t
    ensures Translated(s) <= Translated(t)
    ensures Kept(FileLines(s), FileLines(t), Torn(Translated(s), Translated(t)))
  {
    hide Kept, TextLines, Torn;
    TranslationGrows(s, t);
    LinesGrow(Translated(s), Translated(t), 0);
  }

  /** Only a torn last line is in question: a file settles whenever what follows it begins a new
      line, a complete last record that still lacks its newline included. */
  lemma WholeLinesSettle(s: string, t: string, parse: Parser)
    requires s <= t && Translated(s) <= Translated(t) && !Torn(Translated(s), Translated(t))
    ensures Settles(s, t, parse)
  {
    FileLinesGrow(s, t);
    hide Torn, FileLines;
  }

  lemma {:induction false} HighestOfConcat(a: seq<Record>, b: seq<Record>, id: string)
    ensures AtMost(HighestOf(a, id), HighestOf(a + b, id))
  {
    if b == [] {
      assert a + b == a;
    } else {
      var n := |b| - 1;
      assert (a + b)[..|a + b| - 1] == a + b[..n];
      HighestOfConcat(a, b[..n], id);
    }
  }

  lemma HighestOfPrefix(a: seq<Record>, b: seq<Record>, id: string)
    requires a <= b
    ensures AtMost(HighestOf(a, id), HighestOf(b, id))
    ensures Occurs(a, id) ==> Occurs(b, id)
  {
    assert b == a + b[|a|..];
    HighestOfConcat(a, b[|a|..], id);
    if Occurs(a, id) {
      var i :| 0 <= i < |a| && (a[i].Message? || a[i].Blank?) && a[i].id == id;
      assert b[i] == a[i];
    }
  }

  lemma DropIgnored(a: seq<Record>, id: string)
    requires a != [] && a[|a| - 1].Ignored?
    ensures HighestOf(a, id) == HighestOf(a[..|a| - 1], id)
    ensures Occurs(a, id) ==> Occurs(a[..|a| - 1], id)
  {
    if Occurs(a, id) {
      var i :| 0 <= i < |a| && (a[i].Message? || a[i].Blank?) && a[i].id == id;
      assert a[..|a| - 1][i] == a[i];
    }
  }

  lemma ParsedPrefix(a: seq<string>, b: seq<string>, parse: Parser)
    requires a <= b
    ensures Parsed(a, parse) <= Parsed(b, parse)
  {
  }

  /** A grown file has at least the messages and the counters it had. */
  lemma FileGrows(s: string, t: string, parse: Parser, id: string)
    requires s <= t && Settles(s, t, parse)
    ensures var a, b := Parsed(FileLines(s), parse), Parsed(FileLines(t), parse);
            AtMost(HighestOf(a, id), HighestOf(b, id)) && (Occurs(a, id) ==> Occurs(b, id))
  {
    hide FileLines, HighestOf, Occurs, AtMost;
    var x, y := FileLines(s), FileLines(t);
    FileLinesGrow(s, t);
    if x <= y {
      ParsedPrefix(x, y, parse);
      HighestOfPrefix(Parsed(x, parse), Parsed(y, parse), id);
    } else {
      ParsedPrefix(x[..|x| - 1], y, parse);
      DropIgnored(Parsed(x, parse), id);
      assert Parsed(x, parse)[..|x| - 1] == Parsed(x[..|x| - 1], parse);
      HighestOfPrefix(Parsed(x[..|x| - 1], parse), Parsed(y, parse), id);
    }
  }

  ghost function SessionUsage(session: Session, parse: Parser): Tokens {
    UsageOf(session.paths, session.files, parse)
  }

  lemma EntryGrows(before: Session, after: Session, parse: Parser, p: Path, id: string)
    requires Grew(before, after, parse)
    ensures var m, n := MergeAll(map[], AllLines(before.paths, before.files), parse),
                        MergeAll(map[], AllLines(after.paths, after.files), parse);
            && ((p, id) in m ==> (p, id) in n && AtMost(m[(p, id)], n[(p, id)]))
            && ((p, id) in n ==> AtMost(ZERO, n[(p, id)]))
  {
    MergedEntry(AllLines(before.paths, before.files), p, id, parse);
    MergedEntry(AllLines(after.paths, after.files), p, id, parse);
    HighestInFile(before.paths, before.files, p, id, parse);
    HighestInFile(after.paths, after.files, p, id, parse);
    hide MergeAll, AllLines, Highest, Mentioned, HighestOf, Occurs, FileLines, Parsed, AtMost, Settles;
    if p in before.paths && p in before.files {
      FileGrows(before.files[p], after.files[p], parse, id);
    }
  }

  /** Growing sessions never report less. */
  lemma UsageGrows(before: Session, after: Session, parse: Parser)
    requires Grew(before, after, parse)
    ensures AtMost(SessionUsage(before, parse), SessionUsage(after, parse))
  {
    var m, n := MergeAll(map[], AllLines(before.paths, before.files), parse),
                MergeAll(map[], AllLines(after.paths, after.files), parse);
    forall k: (Path, string)
      ensures k in m ==> k in n && AtMost(m[k], n[k])
      ensures k in n ==> AtMost(ZERO, n[k])
    {
      assert k == (k.0, k.1);
      EntryGrows(before, after, parse, k.0, k.1);
    }
    hide MergeAll, AllLines, Grew;
    TotalsGrow(m, n);
  }

  lemma TotalsGrow(m: Messages, n: Messages)
    requires forall k :: k in m ==> k in n && AtMost(m[k], n[k])
    requires forall k :: k in n ==> AtMost(ZERO, n[k])
    ensures AtMost(Totals(m), Totals(n))
  {
    hide Sum;
    SumMonotone(map k | k in m :: m[k].input, map k | k in n :: n[k].input);
    SumMonotone(map k | k in m :: m[k].cacheCreation, map k | k in n :: n[k].cacheCreation);
    SumMonotone(map k | k in m :: m[k].cacheRead, map k | k in n :: n[k].cacheRead);
    SumMonotone(map k | k in m :: m[k].output, map k | k in n :: n[k].output);
  }

  // ---------------------------------------------------------------- telescoping token deltas

  predicate Growing(sessions: seq<Session>, parse: Parser) {
    forall i :: 0 < i < |sessions| ==> Grew(sessions[i - 1], sessions[i], parse)
  }

  /** The sum of the deltas recorded for the invocations between consecutive snapshots. */
  ghost function DeltaSum(sessions: seq<Session>, parse: Parser): Tokens {
    if |sessions| <= 1 then ZERO else
    var n := |sessions| - 1;
    Plus(DeltaSum(sessions[..n], parse),
         Minus(SessionUsage(sessions[n], parse), SessionUsage(sessions[n - 1], parse)))
  }

  lemma PlusMinus(first: Tokens, sum: Tokens, before: Tokens, after: Tokens)
    requires Plus(first, sum) == before && AtMost(before, after)
    ensures Plus(first, Plus(sum, Minus(after, before))) == after
  {
  }

  /** The deltas of all invocations add up to what the whole session used: nothing is lost to
      clamping and nothing is counted twice. */
  lemma {:induction false} DeltasTelescope(sessions: seq<Session>, parse: Parser)
    requires sessions != [] && Growing(sessions, parse)
    ensures Plus(SessionUsage(sessions[0], parse), DeltaSum(sessions, parse))
         == SessionUsage(sessions[|sessions| - 1], parse)
  {
    hide SessionUsage, Grew, AtMost, Minus;
    if |sessions| > 1 {
      hide Plus;
      var n := |sessions| - 1;
      DeltasTelescope(sessions[..n], parse);
      UsageGrows(sessions[n - 1], sessions[n], parse);
      PlusMinus(SessionUsage(sessions[0], parse), DeltaSum(sessions[..n], parse),
                SessionUsage(sessions[n - 1], parse), SessionUsage(sessions[n], parse));
    }
  }

  // ---------------------------------------------------------------- tool calls

  /** A `tool_use` block with an id and a name. */
  datatype ToolUse = ToolUse(id: string, name: string, skill: string)

  type ToolParser = string -> seq<ToolUse>
  type ToolUses = map<string, (string, string)>

  function Note(uses: ToolUses, blocks: seq<ToolUse>): ToolUses {
    if blocks == [] then uses
    else
      var last := blocks[|blocks| - 1];
      Note(uses, blocks[..|blocks| - 1])[last.id := (last.name, last.skill)]
  }

  function NoteAll(lines: seq<(Path, string)>, tools: ToolParser): ToolUses {
    if lines == [] then map[]
    else Note(NoteAll(lines[..|lines| - 1], tools), tools(lines[|lines| - 1].1))
  }

  /** The tool calls of a session by id, with the number of its transcripts and their usage:
      `transcript_activity`. A call repeated under one id keeps the latest name. */
  datatype Activity = Activity(uses: ToolUses, children: set<Path>, childUsage: Tokens)

  ghost function ActivityOf(main: Path, children: seq<Path>, files: map<Path, string>,
                            parse: Parser, tools: ToolParser): Activity {
    Activity(NoteAll(AllLines([main] + children, files), tools),
             (set p | p in children),
             Minus(UsageOf([main] + children, files, parse), UsageOf([main], files, parse)))
  }

  method ToolUsesOf(paths: seq<Path>, files: map<Path, string>, tools: ToolParser) returns (uses: ToolUses)
    ensures uses == NoteAll(AllLines(paths, files), tools)
  {
    uses := map[];
    var lines := AllLines(paths, files);
    for i := 0 to |lines|
      invariant uses == NoteAll(lines[..i], tools)
    {
      assert lines[..i + 1][..i] == lines[..i];
      var blocks := tools(lines[i].1);
      ghost var before := uses;
      for j := 0 to |blocks|
        invariant uses == Note(before, blocks[..j])
      {
        assert blocks[..j + 1][..j] == blocks[..j];
        uses := uses[blocks[j].id := (blocks[j].name, blocks[j].skill)];
      }
      assert blocks[..|blocks|] == blocks;
    }
    assert lines[..|lines|] == lines;
  }

  datatype ActivityDelta = ActivityDelta(calls: nat, counts: map<string, nat>, skills: set<string>,
                                         children: nat, childTokens: int)

  function NewCalls(before: Activity, after: Activity): set<string> {
    set id | id in after.uses && id !in before.uses
  }

  function AllTokens(t: Tokens): int {
    t.input + t.cacheCreation + t.cacheRead + t.output
  }

  function NamesOf(ids: set<string>, uses: ToolUses): set<string>
    requires ids <= uses.Keys
  {
    set id | id in ids :: uses[id].0
  }

  function Named(ids: set<string>, uses: ToolUses, name: string): set<string>
    requires ids <= uses.Keys
  {
    set id | id in ids && uses[id].0 == name
  }

  /** `activity_delta`. */
  function DeltaOf(before: Activity, after: Activity): ActivityDelta {
    var added := NewCalls(before, after);
    ActivityDelta(
      |added|,
      map name | name in NamesOf(added, after.uses) :: |Named(added, after.uses, name)|,
      set id | id in added && after.uses[id].1 != "" :: after.uses[id].1,
      |after.children - before.children|,
      AllTokens(Minus(after.childUsage, before.childUsage)))
  }

  lemma {:induction false} CountsOfSet(ids: set<string>, uses: ToolUses, counts: map<string, int>)
    requires ids <= uses.Keys && counts.Keys == NamesOf(ids, uses)
    requires forall name :: name in counts ==> counts[name] == |Named(ids, uses, name)|
    ensures Sum(counts) == |ids|
    decreases counts
  {
    assert forall id :: id in ids ==> uses[id].0 in NamesOf(ids, uses);
    if counts == map[] {
      assert ids == {};
    } else {
      var name :| name in counts;
      var own := Named(ids, uses, name);
      var rest := ids - own;
      SumTake(counts, name);
      forall other | other in counts - {name} ensures Named(rest, uses, other) == Named(ids, uses, other) {
      }
      assert (counts - {name}).Keys == NamesOf(rest, uses);
      CountsOfSet(rest, uses, counts - {name});
      assert ids == own + rest && own !! rest;
    }
  }

  /** The per-tool counts of a delta add up to its number of tool calls. */
  lemma CountsAddUp(before: Activity, after: Activity)
    ensures Sum(map name | name in DeltaOf(before, after).counts :: DeltaOf(before, after).counts[name] as int)
         == DeltaOf(before, after).calls
  {
    var counts := map name | name in DeltaOf(before, after).counts :: DeltaOf(before, after).counts[name] as int;
    CountsOfSet(NewCalls(before, after), after.uses, counts);
  }

  /** What a delta says, call by call and counter by counter: the calls that were not there before, under
      their tools and their skills, the child transcripts that are new, and the tokens these and the known
      children used since, the four counters together. */
  lemma DeltaMeaning(before: Activity, after: Activity, added: set<string>, name: string)
    requires forall id :: id in added <==> id in after.uses && id !in before.uses
    ensures var d := DeltaOf(before, after);
            && d.calls == |added|
            && (name in d.counts <==> exists id :: id in added && after.uses[id].0 == name)
            && (name in d.counts ==> d.counts[name] == |set id | id in added && after.uses[id].0 == name|)
            && (name in d.skills <==> name != "" && exists id :: id in added && after.uses[id].1 == name)
            && d.children == |set p | p in after.children && p !in before.children|
            && (AtMost(before.childUsage, after.childUsage) ==>
                  d.childTokens == (after.childUsage.input - before.childUsage.input)
                                 + (after.childUsage.cacheCreation - before.childUsage.cacheCreation)
                                 + (after.childUsage.cacheRead - before.childUsage.cacheRead)
                                 + (after.childUsage.output - before.childUsage.output))
  {
    assert added == NewCalls(before, after);
    assert (set id | id in added && after.uses[id].0 == name) == Named(added, after.uses, name);
    assert (set p | p in after.children && p !in before.children) == after.children - before.children;
  }

  /** Known calls and child transcripts stay known, and child usage does not shrink. */
  predicate ActivityGrew(before: Activity, after: Activity) {
    before.uses.Keys <= after.uses.Keys && before.children <= after.children
    && AtMost(before.childUsage, after.childUsage)
  }

  lemma CallsTelescope(first: Activity, middle: Activity, last: Activity)
    requires ActivityGrew(first, middle) && ActivityGrew(middle, last)
    ensures ActivityGrew(first, last)
    ensures DeltaOf(first, middle).calls + DeltaOf(middle, last).calls == DeltaOf(first, last).calls
    ensures DeltaOf(first, middle).children + DeltaOf(middle, last).children == DeltaOf(first, last).children
    ensures DeltaOf(first, middle).childTokens + DeltaOf(middle, last).childTokens == DeltaOf(first, last).childTokens
  {
    assert NewCalls(first, last) == NewCalls(first, middle) + NewCalls(middle, last);
    assert NewCalls(first, middle) !! NewCalls(middle, last);
    var a, b := middle.children - first.children, last.children - middle.children;
    assert last.children - first.children == a + b && a !! b;
  }

  lemma {:induction false} NotedKeys(uses: ToolUses, blocks: seq<ToolUse>, id: string)
    ensures id in Note(uses, blocks) <==> id in uses || exists j :: 0 <= j < |blocks| && blocks[j].id == id
  {
    if blocks != [] {
      var n := |blocks| - 1;
      NotedKeys(uses, blocks[..n], id);
      forall j | 0 <= j < n ensures blocks[..n][j] == blocks[j] {}
      assert blocks[n].id == id ==> exists j :: 0 <= j < |blocks| && blocks[j].id == id;
    }
  }

  /** All blocks of the lines, in reading order. */
  function Blocks(lines: seq<(Path, string)>, tools: ToolParser): seq<ToolUse> {
    if lines == [] then [] else Blocks(lines[..|lines| - 1], tools) + tools(lines[|lines| - 1].1)
  }

  lemma {:induction false} NoteConcat(uses: ToolUses, a: seq<ToolUse>, b: seq<ToolUse>)
    ensures Note(uses, a + b) == Note(Note(uses, a), b)
  {
    if b == [] {
      assert a + b == a;
    } else {
      var n := |b| - 1;
      assert (a + b)[..|a + b| - 1] == a + b[..n];
      NoteConcat(uses, a, b[..n]);
    }
  }

  lemma {:induction false} NoteAllBlocks(lines: seq<(Path, string)>, tools: ToolParser)
    ensures NoteAll(lines, tools) == Note(map[], Blocks(lines, tools))
  {
    if lines != [] {
      var n := |lines| - 1;
      NoteAllBlocks(lines[..n], tools);
      NoteConcat(map[], Blocks(lines[..n], tools), tools(lines[n].1));
    }
  }

  /** Block `j` is the last one with the id. */
  predicate LastBlock(blocks: seq<ToolUse>, j: nat, id: string) {
    j < |blocks| && blocks[j].id == id && forall k :: j < k < |blocks| ==> blocks[k].id != id
  }

  lemma {:induction false} NoteIsLast(blocks: seq<ToolUse>, j: nat, id: string)
    requires LastBlock(blocks, j, id)
    ensures id in Note(map[], blocks) && Note(map[], blocks)[id] == (blocks[j].name, blocks[j].skill)
  {
    var n := |blocks| - 1;
    if j < n {
      assert blocks[n].id != id;
      NoteIsLast(blocks[..n], j, id);
    }
  }

  /** A session's tool calls are its blocks by id, each with the name and skill of the last block of that id. */
  lemma UsesAre(lines: seq<(Path, string)>, tools: ToolParser, id: string)
    ensures var blocks, uses := Blocks(lines, tools), NoteAll(lines, tools);
            && (id in uses <==> exists j :: 0 <= j < |blocks| && blocks[j].id == id)
            && forall j: nat :: LastBlock(blocks, j, id) ==> id in uses && uses[id] == (blocks[j].name, blocks[j].skill)
  {
    hide Note, Blocks, NoteAll;
    NoteAllBlocks(lines, tools);
    var blocks := Blocks(lines, tools);
    NotedKeys(map[], blocks, id);
    forall j: nat | LastBlock(blocks, j, id) ensures id in Note(map[], blocks) && Note(map[], blocks)[id] == (blocks[j].name, blocks[j].skill) {
      NoteIsLast(blocks, j, id);
    }
  }

  predicate Calls(line: (Path, string), id: string, tools: ToolParser) {
    exists j :: 0 <= j < |tools(line.1)| && tools(line.1)[j].id == id
  }

  lemma {:induction false} NotedInLines(lines: seq<(Path, string)>, id: string, tools: ToolParser)
    ensures id in NoteAll(lines, tools) <==> exists i :: 0 <= i < |lines| && Calls(lines[i], id, tools)
  {
    if lines != [] {
      hide Calls;
      var n := |lines| - 1;
      NotedInLines(lines[..n], id, tools);
      NotedCalls(NoteAll(lines[..n], tools), lines[n], id, tools);
      forall i | 0 <= i < n ensures lines[..n][i] == lines[i] {}
      assert Calls(lines[n], id, tools) ==> exists i :: 0 <= i < |lines| && Calls(lines[i], id, tools);
    }
  }

  lemma NotedCalls(uses: ToolUses, line: (Path, string), id: string, tools: ToolParser)
    ensures id in Note(uses, tools(line.1)) <==> id in uses || Calls(line, id, tools)
  {
    NotedKeys(uses, tools(line.1), id);
  }

  lemma {:induction false} LinesOfFiles(paths: seq<Path>, files: map<Path, string>, p: Path, line: string)
    ensures (p, line) in AllLines(paths, files)
            <==> p in paths && p in files && line in FileLines(files[p])
  {
    if paths != [] {
      hide FileLines;
      LinesOfFiles(paths[1..], files, p, line);
      if paths[0] in files {
        TaggedLines(paths[0], FileLines(files[paths[0]]), p, line);
      }
    }
  }

  lemma TaggedLines(file: Path, lines: seq<string>, p: Path, line: string)
    ensures (p, line) in Tagged(file, lines) <==> p == file && line in lines
  {
    var tagged := Tagged(file, lines);
    if p == file && line in lines {
      var i :| 0 <= i < |lines| && lines[i] == line;
      assert tagged[i] == (p, line);
    }
  }

  /** The same for tool calls: a last line that does not stay holds none. */
  predicate CallsSettle(s: string, t: string, tools: ToolParser) {
    FileLines(s) <= FileLines(t) || (FileLines(s) != [] && tools(FileLines(s)[|FileLines(s)| - 1]) == [])
  }

  lemma CallingLinesStay(s: string, t: string, line: string, tools: ToolParser)
    requires s <= t && CallsSettle(s, t, tools)
    requires line in FileLines(s) && tools(line) != []
    ensures line in FileLines(t)
  {
    var x, y := FileLines(s), FileLines(t);
    FileLinesGrow(s, t);
    hide FileLines;
    var i :| 0 <= i < |x| && x[i] == line;
    if x <= y {
      assert y[i] == line;
    } else {
      assert i < |x| - 1;
      assert x[..|x| - 1][i] == y[i];
    }
  }

  lemma CallsStay(before: Session, after: Session, parse: Parser, tools: ToolParser, id: string)
    requires Grew(before, after, parse)
    requires forall p :: p in before.paths && p in before.files ==> CallsSettle(before.files[p], after.files[p], tools)
    requires id in NoteAll(AllLines(before.paths, before.files), tools)
    ensures id in NoteAll(AllLines(after.paths, after.files), tools)
  {
    var lines, later := AllLines(before.paths, before.files), AllLines(after.paths, after.files);
    NotedInLines(lines, id, tools);
    NotedInLines(later, id, tools);
    hide AllLines, NoteAll, FileLines, Settles, CallsSettle;
    var i :| 0 <= i < |lines| && Calls(lines[i], id, tools);
    var p, line := lines[i].0, lines[i].1;
    assert lines[i] == (p, line);
    LinesOfFiles(before.paths, before.files, p, line);
    CallingLinesStay(before.files[p], after.files[p], line, tools);
    LinesOfFiles(after.paths, after.files, p, line);
    var j :| 0 <= j < |later| && later[j] == (p, line);
    assert Calls(later[j], id, tools);
  }

  /** Two snapshots of a growing session are two growing activities, so their deltas telescope. */
  lemma ActivityGrows(main: Path, children: seq<Path>, files: map<Path, string>,
                      children': seq<Path>, files': map<Path, string>, parse: Parser, tools: ToolParser)
    requires main !in children && main !in children'
    requires Grew(Session([main] + children, files), Session([main] + children', files'), parse)
    requires forall p :: p in children ==> p in children'
    requires forall p :: p in [main] + children && p in files ==> CallsSettle(files[p], files'[p], tools)
    ensures ActivityGrew(ActivityOf(main, children, files, parse, tools),
                         ActivityOf(main, children', files', parse, tools))
  {
    hide *;
    CallsGrow(main, children, files, children', files', parse, tools);
    ChildUsageGrows(main, children, files, children', files', parse);
    MadeOf(main, children, files, children', files', parse, tools);
  }

  lemma MadeOf(main: Path, children: seq<Path>, files: map<Path, string>,
               children': seq<Path>, files': map<Path, string>, parse: Parser, tools: ToolParser)
    requires forall p :: p in children ==> p in children'
    requires NoteAll(AllLines([main] + children, files), tools).Keys
          <= NoteAll(AllLines([main] + children', files'), tools).Keys
    requires AtMost(ActivityOf(main, children, files, parse, tools).childUsage,
                    ActivityOf(main, children', files', parse, tools).childUsage)
    ensures ActivityGrew(ActivityOf(main, children, files, parse, tools),
                         ActivityOf(main, children', files', parse, tools))
  {
    hide NoteAll, AllLines, UsageOf, Minus, AtMost;
  }

  lemma CallsGrow(main: Path, children: seq<Path>, files: map<Path, string>,
                  children': seq<Path>, files': map<Path, string>, parse: Parser, tools: ToolParser)
    requires Grew(Session([main] + children, files), Session([main] + children', files'), parse)
    requires forall p :: p in [main] + children && p in files ==> CallsSettle(files[p], files'[p], tools)
    ensures NoteAll(AllLines([main] + children, files), tools).Keys
         <= NoteAll(AllLines([main] + children', files'), tools).Keys
  {
    hide NoteAll, AllLines, Grew, CallsSettle;
    var before, after := Session([main] + children, files), Session([main] + children', files');
    forall id | id in NoteAll(AllLines(before.paths, files), tools)
      ensures id in NoteAll(AllLines(after.paths, files'), tools)
    {
      CallsStay(before, after, parse, tools, id);
    }
  }

  lemma ChildUsageGrows(main: Path, children: seq<Path>, files: map<Path, string>,
                        children': seq<Path>, files': map<Path, string>, parse: Parser)
    requires main !in children && main !in children'
    requires Grew(Session([main] + children, files), Session([main] + children', files'), parse)
    requires forall p :: p in children ==> p in children'
    ensures forall tools: ToolParser ::
              AtMost(ActivityOf(main, children, files, parse, tools).childUsage,
                     ActivityOf(main, children', files', parse, tools).childUsage)
  {
    hide NoteAll, AllLines, UsageOf, Settles, Minus, AtMost, Plus;
    ChildrenUsageIsExact(main, children, files, parse);
    ChildrenUsageIsExact(main, children', files', parse);
    var before := Session([main] + children, files);
    forall p | p in children && p in files
      ensures p in files' && files[p] <= files'[p] && Settles(files[p], files'[p], parse)
    {
      assert p in before.paths;
    }
    UsageGrows(Session(children, files), Session(children', files'), parse);
  }

  // ---------------------------------------------------------------- any number of snapshots

  /** One snapshot of a session whose main transcript is fixed. */
  datatype Shot = Shot(children: seq<Path>, files: map<Path, string>)

  ghost function ActivityAt(main: Path, shot: Shot, parse: Parser, tools: ToolParser): Activity {
    ActivityOf(main, shot.children, shot.files, parse, tools)
  }

  predicate Continues(main: Path, a: Shot, b: Shot, parse: Parser, tools: ToolParser) {
    && main !in a.children && main !in b.children
    && Grew(Session([main] + a.children, a.files), Session([main] + b.children, b.files), parse)
    && (forall p :: p in a.children ==> p in b.children)
    && forall p :: p in [main] + a.children && p in a.files ==> CallsSettle(a.files[p], b.files[p], tools)
  }

  ghost function Activities(main: Path, shots: seq<Shot>, parse: Parser, tools: ToolParser): (r: seq<Activity>)
    ensures |r| == |shots| && forall i :: 0 <= i < |r| ==> r[i] == ActivityAt(main, shots[i], parse, tools)
  {
    seq(|shots|, i requires 0 <= i < |shots| => ActivityAt(main, shots[i], parse, tools))
  }

  predicate Rising(acts: seq<Activity>) {
    forall i :: 0 < i < |acts| ==> ActivityGrew(acts[i - 1], acts[i])
  }

  lemma ShotsRise(main: Path, shots: seq<Shot>, parse: Parser, tools: ToolParser)
    requires forall i :: 0 < i < |shots| ==> Continues(main, shots[i - 1], shots[i], parse, tools)
    ensures Rising(Activities(main, shots, parse, tools))
  {
    hide ActivityGrew, Grew, CallsSettle, ActivityOf;
    forall i | 0 < i < |shots|
      ensures ActivityGrew(ActivityAt(main, shots[i - 1], parse, tools), ActivityAt(main, shots[i], parse, tools))
    {
      var a, b := shots[i - 1], shots[i];
      ActivityGrows(main, a.children, a.files, b.children, b.files, parse, tools);
    }
  }

  /** What the deltas between consecutive snapshots add up to. */
  datatype Added = Added(calls: nat, children: nat, childTokens: int)

  function AddedBy(d: ActivityDelta): Added {
    Added(d.calls, d.children, d.childTokens)
  }

  function AllAdded(acts: seq<Activity>): Added {
    if |acts| <= 1 then Added(0, 0, 0)
    else
      var n := |acts| - 1;
      var sum, last := AllAdded(acts[..n]), DeltaOf(acts[n - 1], acts[n]);
      Added(sum.calls + last.calls, sum.children + last.children, sum.childTokens + last.childTokens)
  }

  lemma NothingAdded(a: Activity)
    ensures ActivityGrew(a, a) && AddedBy(DeltaOf(a, a)) == Added(0, 0, 0) && NewCalls(a, a) == {}
  {
    assert NewCalls(a, a) == {} && a.children - a.children == {};
  }

  /** For any number of growing activities. */
  lemma {:induction false} DeltasAddUp(acts: seq<Activity>)
    requires acts != [] && Rising(acts)
    ensures ActivityGrew(acts[0], acts[|acts| - 1])
    ensures AllAdded(acts) == AddedBy(DeltaOf(acts[0], acts[|acts| - 1]))
  {
    hide ActivityGrew, DeltaOf;
    if |acts| == 1 {
      NothingAdded(acts[0]);
    } else {
      var n := |acts| - 1;
      DeltasAddUp(acts[..n]);
      CallsTelescope(acts[0], acts[n - 1], acts[n]);
    }
  }

  /** The tool calls, child agents and child tokens of all invocations between the snapshots of a
      growing session add up to those of the whole session. */
  lemma SessionTelescopes(main: Path, shots: seq<Shot>, parse: Parser, tools: ToolParser)
    requires shots != [] && forall i :: 0 < i < |shots| ==> Continues(main, shots[i - 1], shots[i], parse, tools)
    ensures AllAdded(Activities(main, shots, parse, tools))
         == AddedBy(DeltaOf(ActivityAt(main, shots[0], parse, tools), ActivityAt(main, shots[|shots| - 1], parse, tools)))
  {
    hide ActivityGrew, DeltaOf, Continues, ActivityAt, Rising, AllAdded;
    ShotsRise(main, shots, parse, tools);
    DeltasAddUp(Activities(main, shots, parse, tools));
  }

  // ---------------------------------------------------------------- counts per tool

  function CountOf(d: ActivityDelta, name: string): nat {
    if name in d.counts then d.counts[name] else 0
  }

  lemma CountIsNamed(before: Activity, after: Activity, name: string)
    ensures CountOf(DeltaOf(before, after), name) == |Named(NewCalls(before, after), after.uses, name)|
  {
    if name !in NamesOf(NewCalls(before, after), after.uses) {
      assert Named(NewCalls(before, after), after.uses, name) == {};
    }
  }

  /** Calls made since `first` whose latest name in `before` is this one and in `after` is not. */
  function Unnamed(first: Activity, before: Activity, after: Activity, name: string): set<string>
    requires before.uses.Keys <= after.uses.Keys
  {
    Named(NewCalls(first, before), before.uses, name) - Named(NewCalls(first, before), after.uses, name)
  }

  /** The other way round. */
  function Renamed(first: Activity, before: Activity, after: Activity, name: string): set<string>
    requires before.uses.Keys <= after.uses.Keys
  {
    Named(NewCalls(first, before), after.uses, name) - Named(NewCalls(first, before), before.uses, name)
  }

  lemma CardinalitySplit(a: set<string>, b: set<string>)
    ensures |a| + |b - a| == |b| + |a - b|
  {
    assert a + (b - a) == b + (a - b);
  }

  lemma CountStep(first: Activity, middle: Activity, last: Activity, name: string)
    requires ActivityGrew(first, middle) && ActivityGrew(middle, last)
    ensures CountOf(DeltaOf(first, middle), name) + CountOf(DeltaOf(middle, last), name) + |Renamed(first, middle, last, name)|
         == CountOf(DeltaOf(first, last), name) + |Unnamed(first, middle, last, name)|
  {
    CountIsNamed(first, middle, name);
    CountIsNamed(middle, last, name);
    CountIsNamed(first, last, name);
    hide DeltaOf, CountOf;
    var early, late := NewCalls(first, middle), NewCalls(middle, last);
    assert NewCalls(first, last) == early + late && early !! late;
    NamedSplit(early, late, last.uses, name);
    hide NewCalls, Named;
    CardinalitySplit(Named(early, middle.uses, name), Named(early, last.uses, name));
  }

  lemma NamedSplit(a: set<string>, b: set<string>, uses: ToolUses, name: string)
    requires a <= uses.Keys && b <= uses.Keys && a !! b
    ensures |Named(a + b, uses, name)| == |Named(a, uses, name)| + |Named(b, uses, name)|
  {
    assert Named(a + b, uses, name) == Named(a, uses, name) + Named(b, uses, name);
    assert Named(a, uses, name) !! Named(b, uses, name);
  }

  function CountSum(acts: seq<Activity>, name: string): nat {
    if |acts| <= 1 then 0
    else CountSum(acts[..|acts| - 1], name) + CountOf(DeltaOf(acts[|acts| - 2], acts[|acts| - 1]), name)
  }

  /** How often, over all snapshots, a call made since the first one gets this name after another,
      and how often it loses it. */
  function Gains(acts: seq<Activity>, name: string): nat
    requires Rising(acts)
  {
    if |acts| <= 1 then 0
    else Gains(acts[..|acts| - 1], name) + |Renamed(acts[0], acts[|acts| - 2], acts[|acts| - 1], name)|
  }

  function Losses(acts: seq<Activity>, name: string): nat
    requires Rising(acts)
  {
    if |acts| <= 1 then 0
    else Losses(acts[..|acts| - 1], name) + |Unnamed(acts[0], acts[|acts| - 2], acts[|acts| - 1], name)|
  }

  /** The account of one tool's counts over any number of snapshots. */
  lemma {:induction false} CountAccount(acts: seq<Activity>, name: string)
    requires acts != [] && Rising(acts)
    ensures CountSum(acts, name) + Gains(acts, name)
         == CountOf(DeltaOf(acts[0], acts[|acts| - 1]), name) + Losses(acts, name)
  {
    hide ActivityGrew, DeltaOf, CountOf, Renamed, Unnamed;
    if |acts| == 1 {
      NoCount(acts[0], name);
    } else {
      var n := |acts| - 1;
      CountAccount(acts[..n], name);
      DeltasAddUp(acts[..n]);
      CountStep(acts[0], acts[n - 1], acts[n], name);
    }
  }

  lemma NoCount(a: Activity, name: string)
    ensures CountOf(DeltaOf(a, a), name) == 0
  {
    NothingAdded(a);
  }

  /** The per-tool counts of the invocations add up to the whole session's exactly for the tools
      that as many known calls were renamed to as away from. */
  lemma CountsTelescopeIff(acts: seq<Activity>, name: string)
    requires acts != [] && Rising(acts)
    ensures CountSum(acts, name) == CountOf(DeltaOf(acts[0], acts[|acts| - 1]), name)
            <==> Gains(acts, name) == Losses(acts, name)
  {
    CountAccount(acts, name);
  }

  /** No call made since `first` changes its name. */
  predicate KeepsNames(first: Activity, before: Activity, after: Activity)
    requires before.uses.Keys <= after.uses.Keys
  {
    forall id :: id in NewCalls(first, before) ==> before.uses[id].0 == after.uses[id].0
  }

  predicate NamesStay(acts: seq<Activity>)
    requires Rising(acts)
  {
    |acts| > 1 ==> KeepsNames(acts[0], acts[|acts| - 2], acts[|acts| - 1]) && NamesStay(acts[..|acts| - 1])
  }

  lemma NoneRenamed(first: Activity, before: Activity, after: Activity, name: string)
    requires before.uses.Keys <= after.uses.Keys && KeepsNames(first, before, after)
    ensures Renamed(first, before, after, name) == {} == Unnamed(first, before, after, name)
  {
    hide NewCalls;
  }

  lemma SomeRenamed(first: Activity, before: Activity, after: Activity) returns (name: string)
    requires before.uses.Keys <= after.uses.Keys && !KeepsNames(first, before, after)
    ensures |Renamed(first, before, after, name)| > 0
  {
    var id :| id in NewCalls(first, before) && before.uses[id].0 != after.uses[id].0;
    name := after.uses[id].0;
    assert id in Renamed(first, before, after, name);
  }

  lemma {:induction false} NamesStayBalanced(acts: seq<Activity>, name: string)
    requires Rising(acts) && NamesStay(acts)
    ensures Gains(acts, name) == 0 && Losses(acts, name) == 0
  {
    hide KeepsNames, Renamed, Unnamed;
    if |acts| > 1 {
      var n := |acts| - 1;
      NamesStayBalanced(acts[..n], name);
      NoneRenamed(acts[0], acts[n - 1], acts[n], name);
    }
  }

  lemma {:induction false} GainSomewhere(acts: seq<Activity>) returns (name: string)
    requires Rising(acts) && !NamesStay(acts)
    ensures Gains(acts, name) > 0
  {
    hide KeepsNames, Renamed;
    var n := |acts| - 1;
    if NamesStay(acts[..n]) {
      name := SomeRenamed(acts[0], acts[n - 1], acts[n]);
    } else {
      name := GainSomewhere(acts[..n]);
    }
  }

  /** Renaming never goes unnoticed by every tool: some tool gains a call exactly when some known call
      changes its name. Without renaming the counts of all tools add up. */
  lemma NamesStayIff(acts: seq<Activity>)
    requires acts != [] && Rising(acts)
    ensures NamesStay(acts) <==> forall name :: Gains(acts, name) == 0
    ensures NamesStay(acts) ==> forall name :: CountSum(acts, name) == CountOf(DeltaOf(acts[0], acts[|acts| - 1]), name)
  {
    hide DeltaOf, CountOf, Rising;
    if NamesStay(acts) {
      forall name
        ensures Gains(acts, name) == 0 && CountSum(acts, name) == CountOf(DeltaOf(acts[0], acts[|acts| - 1]), name)
      {
        NamesStayBalanced(acts, name);
        CountsTelescopeIff(acts, name);
      }
    } else {
      var name := GainSomewhere(acts);
      assert Gains(acts, name) != 0;
    }
  }

  lemma OneNamed(ids: set<string>, uses: ToolUses, name: string, id: string)
    requires ids <= uses.Keys && id in ids
    requires forall other :: other in ids ==> (uses[other].0 == name <==> other == id)
    ensures Named(ids, uses, name) == {id}
  {
  }

  /** One call that is renamed: its count is not the session's. */
  lemma OneRenamed(a: Activity, b: Activity, c: Activity, id: string, was: string, now: string)
    requires a.uses == map[] && b.uses == map[id := (was, "")] && c.uses == map[id := (now, "")] && was != now
    ensures CountOf(DeltaOf(a, b), was) + CountOf(DeltaOf(b, c), was) == 1 && CountOf(DeltaOf(a, c), was) == 0
  {
    hide DeltaOf, CountOf;
    CountIsNamed(a, b, was);
    CountIsNamed(b, c, was);
    CountIsNamed(a, c, was);
    assert NewCalls(a, b) == {id} == NewCalls(a, c) && NewCalls(b, c) == {};
    OneNamed({id}, b.uses, was, id);
    assert Named({}, c.uses, was) == {} == Named({id}, c.uses, was);
  }

  /** A session that is one transcript. */
  function MainShot(main: Path, content: string): Shot {
    Shot([], map[main := content])
  }

  lemma MainUses(main: Path, content: string, parse: Parser, tools: ToolParser)
    ensures ActivityAt(main, MainShot(main, content), parse, tools).uses == NoteAll(Tagged(main, FileLines(content)), tools)
  {
    hide FileLines;
    var shot := MainShot(main, content);
    var paths := [main] + shot.children;
    assert paths[1..] == [];
    assert AllLines(paths[1..], shot.files) == [];
    assert AllLines(paths, shot.files) == Tagged(main, FileLines(content));
    assert ActivityAt(main, shot, parse, tools).uses == NoteAll(AllLines(paths, shot.files), tools);
  }

  lemma MainContinues(main: Path, s: string, t: string, parse: Parser, tools: ToolParser)
    requires s <= t && FileLines(s) <= FileLines(t)
    ensures Continues(main, MainShot(main, s), MainShot(main, t), parse, tools)
  {
    hide FileLines;
  }

  lemma NothingThere()
    ensures FileLines("") == []
  {
  }

  lemma TwoLines(x: string, y: string)
    requires OneLine(x) && OneLine(y)
    ensures FileLines("") == [] && FileLines(x + "\n") == [x] && FileLines(x + "\n" + y + "\n") == [x, y]
  {
    hide TextLines, Translated, OneLine, Read;
    NothingThere();
    PlainLine(x, _ => Ignored);
    NoNewline(x);
    NoNewline(y);
    TwoTextLines(x, y);
    TranslatedPlain(x + "\n" + y + "\n");
  }

  lemma NotedTwo(main: Path, x: string, y: string, tools: ToolParser, id: string, was: string, now: string)
    requires tools(x) == [ToolUse(id, was, "")] && tools(y) == [ToolUse(id, now, "")]
    ensures NoteAll(Tagged(main, [x]), tools) == map[id := (was, "")]
    ensures NoteAll(Tagged(main, [x, y]), tools) == map[id := (now, "")]
  {
    var one, two := Tagged(main, [x]), Tagged(main, [x, y]);
    assert one == [(main, x)] && one[..0] == [] && two[..1] == one && two[1] == (main, y);
    NoteOne(map[], id, was);
    NoteOne(map[id := (was, "")], id, now);
    assert NoteAll(one[..0], tools) == map[];
    assert NoteAll(one, tools) == Note(map[], tools(x));
    assert NoteAll(two, tools) == Note(NoteAll(one, tools), tools(y));
  }

  lemma NoteOne(uses: ToolUses, id: string, name: string)
    ensures Note(uses, [ToolUse(id, name, "")]) == uses[id := (name, "")]
  {
    var blocks := [ToolUse(id, name, "")];
    assert blocks[..0] == [];
    assert Note(uses, blocks[..0]) == uses;
  }

  /** A transcript whose second record gives the call of the first another name: the counts of the
      invocations do not add up to the session's. */
  lemma RenamingBreaksCounts(main: Path, x: string, y: string, parse: Parser, tools: ToolParser,
                             id: string, was: string, now: string)
    requires OneLine(x) && OneLine(y) && was != now
    requires tools(x) == [ToolUse(id, was, "")] && tools(y) == [ToolUse(id, now, "")]
    ensures var shots := [MainShot(main, ""), MainShot(main, x + "\n"), MainShot(main, x + "\n" + y + "\n")];
            var acts := Activities(main, shots, parse, tools);
            && Continues(main, shots[0], shots[1], parse, tools) && Continues(main, shots[1], shots[2], parse, tools)
            && CountSum(acts, was) == 1 && CountOf(DeltaOf(acts[0], acts[2]), was) == 0
  {
    hide FileLines, Continues, ActivityAt, DeltaOf, CountOf, OneLine, Tagged, Activities;
    var one, two := x + "\n", x + "\n" + y + "\n";
    var shots := [MainShot(main, ""), MainShot(main, one), MainShot(main, two)];
    TwoLines(x, y);
    MainContinues(main, "", one, parse, tools);
    MainContinues(main, one, two, parse, tools);
    MainUses(main, "", parse, tools);
    MainUses(main, one, parse, tools);
    MainUses(main, two, parse, tools);
    NotedTwo(main, x, y, tools, id, was, now);
    var acts := Activities(main, shots, parse, tools);
    assert NoteAll(Tagged(main, []), tools) == map[] by {
      assert Tagged(main, []) == [];
    }
    OneRenamed(acts[0], acts[1], acts[2], id, was, now);
    ThreeCounts(acts, was);
  }

  lemma ThreeCounts(acts: seq<Activity>, name: string)
    requires |acts| == 3
    ensures CountSum(acts, name) == CountOf(DeltaOf(acts[0], acts[1]), name) + CountOf(DeltaOf(acts[1], acts[2]), name)
  {
    hide DeltaOf, CountOf;
    assert acts[..2][..1] == [acts[0]];
    assert CountSum(acts[..2][..1], name) == 0;
    assert CountSum(acts[..2], name) == CountOf(DeltaOf(acts[0], acts[1]), name);
  }

  /** Two calls that swap their names: both are renamed, and the counts add up all the same. */
  lemma SwapKeepsCounts(a: Activity, b: Activity, c: Activity, x: string, y: string, was: string, now: string)
    requires x != y && was != now && a.uses == map[]
    requires b.uses == map[x := (was, ""), y := (now, "")] && c.uses == map[x := (now, ""), y := (was, "")]
    ensures CountOf(DeltaOf(a, b), was) + CountOf(DeltaOf(b, c), was) == CountOf(DeltaOf(a, c), was)
  {
    hide DeltaOf, CountOf;
    CountIsNamed(a, b, was);
    CountIsNamed(b, c, was);
    CountIsNamed(a, c, was);
    assert NewCalls(a, b) == {x, y} == NewCalls(a, c) && NewCalls(b, c) == {};
    hide NewCalls;
    OneNamed({x, y}, b.uses, was, x);
    OneNamed({x, y}, c.uses, was, y);
    assert Named({}, c.uses, was) == {};
  }
}
