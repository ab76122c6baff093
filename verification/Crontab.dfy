/** The crontab toggle (`_set_cron_enabled`) against the separate crontab reader (`_cron_jobs`). */
module Crontab {
  import Sequences
  import opened Text
  import opened Wrappers

  const DISABLED := "# sloperator-disabled: "
  const START := "# >>> ug-ai-analyst:"
  const CLOSE := "# <<< ug-ai-analyst:"
  const END := " >>>"

  /** One schedule line inside a managed block: five time fields and the command after them. */
  datatype Job = Job(name: string, schedule: seq<string>, command: string, enabled: bool)

  // ---------------------------------------------------------------- words of a line

  /** The leading run of non-whitespace. */
  function Word(s: string): (w: string)
    ensures |w| <= |s| && s[..|w|] == w
    ensures s != "" && !IsSpace(s[0]) ==> w != ""
  {
    if s == "" || IsSpace(s[0]) then "" else [s[0]] + Word(s[1..])
  }

  /** `line.split(maxsplit=n)`. */
  function Fields(line: string, n: nat): seq<string>
    decreases n
  {
    var t := LStrip(line);
    if t == "" then []
    else if n == 0 then [t]
    else [Word(t)] + Fields(t[|Word(t)|..], n - 1)
  }

  /** `line.split()[0]` names a variable assignment. */
  predicate IsAssignment(line: string) {
    '=' in Word(LStrip(line))
  }

  /** No whitespace in it. */
  predicate Solid(s: string) {
    s != "" && forall i :: 0 <= i < |s| ==> !IsSpace(s[i])
  }

  /** `fields` one after the other, each behind its gap. */
  function Spread(gaps: seq<string>, fields: seq<string>): string
    requires |gaps| == |fields|
  {
    if fields == [] then "" else gaps[0] + fields[0] + Spread(gaps[1..], fields[1..])
  }

  /** The fields are words with whitespace between them; the last one is any text that does not start with
      whitespace. */
  predicate WellSpread(gaps: seq<string>, fields: seq<string>) {
    && |gaps| == |fields| > 0
    && (forall i :: 0 <= i < |gaps| ==> AllSpace(gaps[i]) && (i > 0 ==> gaps[i] != ""))
    && (forall i :: 0 <= i < |fields| - 1 ==> Solid(fields[i]))
    && fields[|fields| - 1] != "" && !IsSpace(fields[|fields| - 1][0])
  }

  lemma {:induction false} WordOf(word: string, rest: string)
    requires Solid(word) && (rest == "" || IsSpace(rest[0]))
    ensures Word(word + rest) == word && (word + rest)[|word|..] == rest
  {
    if |word| == 1 {
      assert (word + rest)[1..] == rest;
    } else {
      assert (word + rest)[1..] == word[1..] + rest;
      WordOf(word[1..], rest);
    }
  }

  lemma {:induction false} WordEnds(s: string)
    ensures forall i :: 0 <= i < |Word(s)| ==> !IsSpace(Word(s)[i])
    ensures |Word(s)| < |s| ==> IsSpace(s[|Word(s)|])
  {
    if s != "" && !IsSpace(s[0]) {
      WordEnds(s[1..]);
    }
  }

  lemma SpreadStarts(gaps: seq<string>, fields: seq<string>)
    requires WellSpread(gaps, fields)
    ensures LStrip(Spread(gaps, fields)) == fields[0] + Spread(gaps[1..], fields[1..]) != ""
    ensures |fields| > 1 ==> WellSpread(gaps[1..], fields[1..])
    ensures |fields| > 1 ==> Spread(gaps[1..], fields[1..]) != "" && IsSpace(Spread(gaps[1..], fields[1..])[0])
  {
    hide LStrip, IsSpace;
    FirstField(gaps, fields);
    var rest := Spread(gaps[1..], fields[1..]);
    Sequences.Regroup(gaps[0], fields[0], rest);
    StartsSolid(gaps[0], fields[0], rest);
    if |fields| > 1 {
      SpreadTail(gaps, fields);
    }
  }

  lemma FirstField(gaps: seq<string>, fields: seq<string>)
    requires WellSpread(gaps, fields)
    ensures AllSpace(gaps[0]) && fields[0] != "" && !IsSpace(fields[0][0])
  {
    hide IsSpace;
    if |fields| > 1 {
      assert Solid(fields[0]);
    }
  }

  lemma StartsSolid(gap: string, word: string, rest: string)
    requires AllSpace(gap) && word != "" && !IsSpace(word[0])
    ensures LStrip(gap + (word + rest)) == word + rest != ""
  {
    hide IsSpace;
    assert (word + rest)[0] == word[0];
    LStripAfter(gap, word + rest);
  }

  lemma SpreadTail(gaps: seq<string>, fields: seq<string>)
    requires WellSpread(gaps, fields) && |fields| > 1
    ensures WellSpread(gaps[1..], fields[1..])
    ensures Spread(gaps[1..], fields[1..]) != "" && IsSpace(Spread(gaps[1..], fields[1..])[0])
  {
    hide IsSpace;
    var left, later := gaps[1..], fields[1..];
    assert left[0] == gaps[1] && later[|later| - 1] == fields[|fields| - 1];
    assert Spread(left, later)[0] == gaps[1][0];
  }

  lemma FieldsStep(line: string, n: nat)
    requires LStrip(line) != ""
    ensures var t := LStrip(line);
            Fields(line, n) == if n == 0 then [t] else [Word(t)] + Fields(t[|Word(t)|..], n - 1)
  {
    hide LStrip, Word;
  }

  lemma SpreadOne(gaps: seq<string>, fields: seq<string>)
    requires |gaps| == |fields| == 1
    ensures Spread(gaps[1..], fields[1..]) == "" && [fields[0] + ""] == fields && Spread(gaps, fields) == gaps[0] + fields[0]
  {
    assert fields[0] + "" == fields[0];
    assert gaps[0] + fields[0] + "" == gaps[0] + fields[0];
  }

  lemma FirstSolid(gaps: seq<string>, fields: seq<string>)
    requires WellSpread(gaps, fields) && |fields| > 1
    ensures Solid(fields[0]) && fields == [fields[0]] + fields[1..]
  {
  }

  /** Splitting finds the fields of any line made of them. */
  lemma {:induction false} FieldsOf(gaps: seq<string>, fields: seq<string>)
    requires |gaps| == |fields| > 0 && WellSpread(gaps, fields)
    ensures Fields(Spread(gaps, fields), |fields| - 1) == fields
    decreases |fields|
  {
    hide *;
    SpreadStarts(gaps, fields);
    FieldsStep(Spread(gaps, fields), |fields| - 1);
    if |fields| == 1 {
      SpreadOne(gaps, fields);
    } else {
      FirstSolid(gaps, fields);
      WordOf(fields[0], Spread(gaps[1..], fields[1..]));
      FieldsOf(gaps[1..], fields[1..]);
    }
  }

  lemma OneField(gap: string, t: string, gaps: seq<string>, fields: seq<string>)
    requires AllSpace(gap) && t != "" && !IsSpace(t[0]) && gaps == [gap] && fields == [t]
    ensures WellSpread(gaps, fields) && Spread(gaps, fields) == gap + t
  {
    SpreadOne(gaps, fields);
    hide IsSpace;
  }

  lemma WordNonEmpty(t: string)
    requires t != "" && !IsSpace(t[0])
    ensures Word(t) != ""
  {
  }

  lemma FirstOfLine(line: string) returns (gap: string, word: string, rest: string)
    requires LStrip(line) != ""
    ensures AllSpace(gap) && Solid(word) && word == Word(LStrip(line)) && rest == LStrip(line)[|word|..]
    ensures line == gap + LStrip(line) == gap + word + rest
    ensures rest == "" || IsSpace(rest[0])
  {
    hide IsSpace, AllSpace, Word, LStrip;
    gap := LStripParts(line);
    var t := LStrip(line);
    WordEnds(t);
    word, rest := Word(t), t[|Word(t)|..];
    WordNonEmpty(t);
    assert t == word + rest;
    Sequences.Regroup(gap, word, rest);
  }

  lemma SomethingLeft(line: string, n: nat)
    requires |Fields(line, n)| == n + 1
    ensures LStrip(line) != "" && !IsSpace(LStrip(line)[0])
  {
    hide Word, IsSpace;
  }

  /** And a line that splits into that many fields is made of them. */
  lemma {:induction false} FieldsSpread(line: string, n: nat) returns (gaps: seq<string>)
    requires |Fields(line, n)| == n + 1
    ensures WellSpread(gaps, Fields(line, n)) && line == Spread(gaps, Fields(line, n))
    decreases n
  {
    hide *;
    SomethingLeft(line, n);
    FieldsStep(line, n);
    var gap, word, rest := FirstOfLine(line);
    if n == 0 {
      gaps := [gap];
      OneField(gap, LStrip(line), gaps, Fields(line, n));
    } else {
      var later := FieldsSpread(rest, n - 1);
      SameLength(later, Fields(rest, n - 1));
      gaps := [gap] + later;
      SpreadCons(gap, word, rest, later, Fields(rest, n - 1));
      SameLength(gaps, Fields(line, n));
    }
  }

  lemma SameLength(gaps: seq<string>, fields: seq<string>)
    requires WellSpread(gaps, fields)
    ensures |gaps| == |fields| > 0
  {
  }

  lemma SpreadCons(gap: string, word: string, rest: string, gaps: seq<string>, fields: seq<string>)
    requires AllSpace(gap) && Solid(word) && WellSpread(gaps, fields) && rest == Spread(gaps, fields)
    requires rest == "" || IsSpace(rest[0])
    ensures WellSpread([gap] + gaps, [word] + fields) && Spread([gap] + gaps, [word] + fields) == gap + word + rest
  {
    var more, all := [gap] + gaps, [word] + fields;
    assert more[1..] == gaps && all[1..] == fields;
    assert forall i :: 0 < i < |all| ==> more[i] == gaps[i - 1] && all[i] == fields[i - 1];
    assert rest == gaps[0] + fields[0] + Spread(gaps[1..], fields[1..]);
  }

  // ---------------------------------------------------------------- the reader

  predicate IsStart(line: string) {
    StartsWith(line, START) && EndsWith(line, END)
  }

  predicate IsClose(line: string) {
    StartsWith(line, CLOSE)
  }

  predicate IsComment(line: string) {
    line != "" && line[0] == '#'
  }

  function StartName(line: string): string
    requires IsStart(line)
  {
    var rest := line[|START|..];
    if EndsWith(rest, END) then rest[..|rest| - |END|] else rest
  }

  /** The block the reader is in after `raw`. */
  function BlockAfter(current: Option<string>, raw: string): Option<string> {
    var line := Strip(raw);
    if IsStart(line) then Some(StartName(line))
    else if IsClose(line) then None
    else current
  }

  /** The job on a schedule line once the marker, if any, is off. */
  function PayloadJob(name: string, payload: string, enabled: bool): seq<Job> {
    if payload == "" || IsComment(payload) || IsAssignment(payload) then [] else
    var fields := Fields(payload, 5);
    if |fields| == 6 then [Job(name, fields[..5], fields[5], enabled)] else []
  }

  /** The job, if any, that `raw` contributes to block `current`. */
  function JobOn(current: Option<string>, raw: string): seq<Job> {
    var line := Strip(raw);
    if IsStart(line) || IsClose(line) || current.None? then []
    else if StartsWith(line, DISABLED) then PayloadJob(current.value, line[|DISABLED|..], false)
    else PayloadJob(current.value, line, true)
  }

  /** The text is a schedule: five time fields and a command, the first field no assignment, no comment. */
  ghost predicate Schedules(payload: string, schedule: seq<string>, command: string) {
    exists gaps, fields ::
      && |fields| == 6 && WellSpread(gaps, fields) && payload == Spread(gaps, fields)
      && payload != "" && payload[0] != '#' && '=' !in fields[0]
      && schedule == fields[..5] && command == fields[5]
  }

  lemma PayloadIff(name: string, payload: string, enabled: bool, job: Job)
    ensures job in PayloadJob(name, payload, enabled)
            <==> job.name == name && job.enabled == enabled && Schedules(payload, job.schedule, job.command)
  {
    hide Fields, Spread;
    if job in PayloadJob(name, payload, enabled) {
      var gaps := FieldsSpread(payload, 5);
      FirstWord(gaps, Fields(payload, 5));
    }
    if Schedules(payload, job.schedule, job.command) {
      var gaps, fields :|
        && |fields| == 6 && WellSpread(gaps, fields) && payload == Spread(gaps, fields)
        && payload != "" && payload[0] != '#' && '=' !in fields[0]
        && job.schedule == fields[..5] && job.command == fields[5];
      FieldsOf(gaps, fields);
      FirstWord(gaps, fields);
    }
  }

  lemma FirstWord(gaps: seq<string>, fields: seq<string>)
    requires WellSpread(gaps, fields) && |fields| > 1
    ensures Word(LStrip(Spread(gaps, fields))) == fields[0]
  {
    SpreadStarts(gaps, fields);
    WordOf(fields[0], Spread(gaps[1..], fields[1..]));
  }

  /** The line is no marker and holds this job: a schedule, or one behind the marker of a disabled job. */
  ghost predicate Holds(raw: string, job: Job) {
    var line := Strip(raw);
    && !(StartsWith(line, "# >>> ug-ai-analyst:") && EndsWith(line, " >>>"))
    && !StartsWith(line, "# <<< ug-ai-analyst:")
    && job.enabled == !StartsWith(line, "# sloperator-disabled: ")
    && Schedules(if job.enabled then line else line[23..], job.schedule, job.command)
  }

  lemma JobOnIff(current: Option<string>, raw: string, job: Job)
    ensures job in JobOn(current, raw) <==> current == Some(job.name) && Holds(raw, job)
  {
    assert |DISABLED| == 23;
    hide Strip, Schedules, PayloadJob;
    if current.Some? {
      var line := Strip(raw);
      PayloadIff(current.value, line, true, job);
      if StartsWith(line, DISABLED) {
        PayloadIff(current.value, line[|DISABLED|..], false, job);
      }
    }
  }

  function JobsFrom(lines: seq<string>, current: Option<string>): seq<Job> {
    if lines == [] then []
    else JobOn(current, lines[0]) + JobsFrom(lines[1..], BlockAfter(current, lines[0]))
  }

  /** The loop body of the reader. */
  method ReadLine(current: Option<string>, raw: string) returns (next: Option<string>, found: seq<Job>)
    ensures next == BlockAfter(current, raw) && found == JobOn(current, raw)
  {
    hide Strip, Fields, IsAssignment, StartName;
    next, found := current, [];
    var line := Strip(raw);
    if IsStart(line) {
      next := Some(StartName(line));
    } else if IsClose(line) {
      next := None;
    } else {
      var enabled := true;
      if StartsWith(line, DISABLED) {
        line := line[|DISABLED|..];
        enabled := false;
      }
      if current.Some? && line != "" && !IsComment(line) && !IsAssignment(line) {
        var fields := Fields(line, 5);
        if |fields| == 6 {
          found := [Job(current.value, fields[..5], fields[5], enabled)];
        }
      }
    }
  }

  lemma JobsStep(lines: seq<string>, i: nat, current: Option<string>)
    requires i < |lines|
    ensures JobsFrom(lines[i..], current)
         == JobOn(current, lines[i]) + JobsFrom(lines[i + 1..], BlockAfter(current, lines[i]))
  {
    assert lines[i..][1..] == lines[i + 1..];
  }

  method CronJobs(lines: seq<string>) returns (jobs: seq<Job>)
    ensures jobs == JobsFrom(lines, None)
  {
    hide JobOn, BlockAfter;
    jobs := [];
    var currentName: Option<string> := None;
    var i := 0;
    while i < |lines|
      invariant 0 <= i <= |lines|
      invariant jobs + JobsFrom(lines[i..], currentName) == JobsFrom(lines, None)
    {
      JobsStep(lines, i, currentName);
      var found;
      currentName, found := ReadLine(currentName, lines[i]);
      jobs := jobs + found;
      i := i + 1;
    }
  }

  // ---------------------------------------------------------------- what the reader reports

  /** The last marker before line `i` starts block `name`. */
  predicate InBlock(lines: seq<string>, i: nat, name: string)
    requires i <= |lines|
  {
    exists j :: 0 <= j < i && StartsBlock(lines[j], name) && NoMarkers(lines, j + 1, i)
  }

  predicate StartsBlock(raw: string, name: string) {
    IsStart(Strip(raw)) && StartName(Strip(raw)) == name
  }

  predicate IsMarker(raw: string) {
    IsStart(Strip(raw)) || IsClose(Strip(raw))
  }

  predicate NoMarkers(lines: seq<string>, from: nat, to: nat)
    requires to <= |lines|
  {
    forall k :: from <= k < to ==> !IsMarker(lines[k])
  }

  function BlockAt(lines: seq<string>, i: nat): Option<string>
    requires i <= |lines|
  {
    if i == 0 then None else BlockAfter(BlockAt(lines, i - 1), lines[i - 1])
  }

  lemma BlockStep(current: Option<string>, raw: string, name: string)
    ensures BlockAfter(current, raw) == Some(name) <==> StartsBlock(raw, name) || (!IsMarker(raw) && current == Some(name))
  {
    hide Strip, StartName, IsStart, IsClose;
  }

  lemma InBlockStep(lines: seq<string>, i: nat, name: string)
    requires i < |lines|
    ensures InBlock(lines, i + 1, name) <==> StartsBlock(lines[i], name) || (!IsMarker(lines[i]) && InBlock(lines, i, name))
  {
    hide StartsBlock, IsMarker;
    StartIsMarker(lines[i], name);
    if StartsBlock(lines[i], name) {
      assert NoMarkers(lines, i + 1, i + 1);
    } else if !IsMarker(lines[i]) && InBlock(lines, i, name) {
      var j :| 0 <= j < i && StartsBlock(lines[j], name) && NoMarkers(lines, j + 1, i);
      assert NoMarkers(lines, j + 1, i + 1);
    }
  }

  lemma StartIsMarker(raw: string, name: string)
    ensures StartsBlock(raw, name) ==> IsMarker(raw)
  {
    hide Strip, StartName, IsStart, IsClose;
  }

  lemma OutsideAtFirst(lines: seq<string>, name: string)
    ensures !InBlock(lines, 0, name)
  {
  }

  lemma {:induction false} BlockIs(lines: seq<string>, i: nat, name: string)
    requires i <= |lines|
    ensures BlockAt(lines, i) == Some(name) <==> InBlock(lines, i, name)
  {
    hide BlockAfter, InBlock, StartsBlock, IsMarker;
    if i == 0 {
      OutsideAtFirst(lines, name);
    } else {
      BlockIs(lines, i - 1, name);
      BlockStep(BlockAt(lines, i - 1), lines[i - 1], name);
      InBlockStep(lines, i - 1, name);
    }
  }

  lemma {:induction false} JobsFromLines(lines: seq<string>, i: nat, job: Job)
    requires i <= |lines|
    ensures job in JobsFrom(lines[i..], BlockAt(lines, i)) <==> exists k :: i <= k < |lines| && job in JobOn(BlockAt(lines, k), lines[k])
    decreases |lines| - i
  {
    hide JobOn, BlockAfter;
    if i < |lines| {
      JobsStep(lines, i, BlockAt(lines, i));
      JobsFromLines(lines, i + 1, job);
    }
  }

  /** The reader reports a job exactly if some line holds it while the last block marker
      before that line starts the job's block. */
  lemma ReaderMeaning(lines: seq<string>, job: Job)
    ensures job in JobsFrom(lines, None)
            <==> exists i :: 0 <= i < |lines| && InBlock(lines, i, job.name) && Holds(lines[i], job)
  {
    JobsFromLines(lines, 0, job);
    assert lines[0..] == lines;
    hide JobsFrom, JobOn, InBlock, BlockAt, Holds;
    forall k | 0 <= k < |lines|
      ensures job in JobOn(BlockAt(lines, k), lines[k]) <==> InBlock(lines, k, job.name) && Holds(lines[k], job)
    {
      BlockIs(lines, k, job.name);
      JobOnIff(BlockAt(lines, k), lines[k], job);
    }
    assert BlockAt(lines, 0) == None by {
      StartsOutside(lines);
    }
  }

  lemma StartsOutside(lines: seq<string>)
    ensures BlockAt(lines, 0) == None
  {
  }

  // ---------------------------------------------------------------- the editor

  function StartLine(name: string): string {
    START + name + END
  }

  /** Whether the editor is inside the target block after `raw`. */
  function TargetAfter(inTarget: bool, raw: string, name: string): bool {
    var line := Strip(raw);
    if line == StartLine(name) then true else inTarget && !IsClose(line)
  }

  /** `s.replace(pattern, "", 1)`. */
  function RemoveFirst(s: string, pattern: string): string {
    if StartsWith(s, pattern) then s[|pattern|..]
    else if s == "" then s
    else [s[0]] + RemoveFirst(s[1..], pattern)
  }

  /** A line the editor comments out. */
  predicate IsSchedule(line: string) {
    line != "" && !IsComment(line) && !IsAssignment(line)
  }

  function EditedLine(inTarget: bool, raw: string, name: string, enabled: bool): string {
    var line := Strip(raw);
    if line == StartLine(name) || !TargetAfter(inTarget, raw, name) then raw
    else if enabled && StartsWith(line, DISABLED) then RemoveFirst(raw, DISABLED)
    else if !enabled && IsSchedule(line) then DISABLED + raw
    else raw
  }

  function Edited(lines: seq<string>, inTarget: bool, name: string, enabled: bool): (r: seq<string>)
    ensures |r| == |lines|
  {
    if lines == [] then []
    else [EditedLine(inTarget, lines[0], name, enabled)]
         + Edited(lines[1..], TargetAfter(inTarget, lines[0], name), name, enabled)
  }

  lemma EditedStep(lines: seq<string>, i: nat, inTarget: bool, name: string, enabled: bool)
    requires i < |lines|
    ensures Edited(lines[i..], inTarget, name, enabled)
         == [EditedLine(inTarget, lines[i], name, enabled)]
            + Edited(lines[i + 1..], TargetAfter(inTarget, lines[i], name), name, enabled)
  {
    assert lines[i..][1..] == lines[i + 1..];
  }

  /** An edit is visible: the new line is shorter or longer by the marker. */
  lemma EditChangesLine(raw: string)
    ensures DISABLED + raw != raw
    ensures StartsWith(Strip(raw), DISABLED) ==> |RemoveFirst(raw, DISABLED)| < |raw|
  {
    PrefixChanges(DISABLED, raw);
    if StartsWith(Strip(raw), DISABLED) {
      RemovalShortens(raw);
    }
  }

  lemma PrefixChanges(prefix: string, raw: string)
    requires prefix != ""
    ensures prefix + raw != raw
  {
    assert |prefix + raw| > |raw|;
  }

  lemma RemovalShortens(raw: string)
    requires StartsWith(Strip(raw), DISABLED)
    ensures |RemoveFirst(raw, DISABLED)| < |raw|
  {
    hide Strip, RemoveFirst, AllSpace;
    var before, after := StripParts(raw);
    EnabledLine(before, Strip(raw)[|DISABLED|..], after);
    assert Strip(raw) == DISABLED + Strip(raw)[|DISABLED|..];
  }

  lemma RemoveHere(rest: string)
    ensures RemoveFirst(DISABLED + rest, DISABLED) == rest
  {
    assert (DISABLED + rest)[..|DISABLED|] == DISABLED && (DISABLED + rest)[|DISABLED|..] == rest;
  }

  lemma RemoveLater(c: char, rest: string)
    requires c != '#'
    ensures RemoveFirst([c] + rest, DISABLED) == [c] + RemoveFirst(rest, DISABLED)
  {
    var s := [c] + rest;
    assert |s| >= |DISABLED| ==> s[..|DISABLED|][0] == c;
    assert s[1..] == rest;
  }

  /** The marker sits right behind the indentation, and only it is taken out. */
  lemma {:induction false} EnabledLine(before: string, payload: string, after: string)
    requires AllSpace(before)
    ensures RemoveFirst(before + (DISABLED + payload) + after, DISABLED) == before + payload + after
  {
    hide RemoveFirst;
    if before == "" {
      assert before + (DISABLED + payload) + after == DISABLED + (payload + after);
      RemoveHere(payload + after);
    } else {
      var rest := before[1..];
      assert before + (DISABLED + payload) + after == [before[0]] + (rest + (DISABLED + payload) + after);
      RemoveLater(before[0], rest + (DISABLED + payload) + after);
      EnabledLine(rest, payload, after);
    }
  }

  /** The loop body of the editor. */
  method EditLine(inTarget: bool, raw: string, name: string, enabled: bool)
    returns (nowInTarget: bool, edited: string, changed: bool)
    ensures nowInTarget == TargetAfter(inTarget, raw, name)
    ensures edited == EditedLine(inTarget, raw, name, enabled)
    ensures changed <==> edited != raw
  {
    nowInTarget, edited, changed := inTarget, raw, false;
    var line := Strip(raw);
    if line == StartLine(name) {
      nowInTarget := true;
    } else {
      if inTarget && IsClose(line) {
        nowInTarget := false;
      }
      EditChangesLine(raw);
      if nowInTarget {
        if enabled && StartsWith(line, DISABLED) {
          edited := RemoveFirst(raw, DISABLED);
          changed := true;
        } else if !enabled && line != "" && !IsComment(line) && !IsAssignment(line) {
          edited := DISABLED + raw;
          changed := true;
        }
      }
    }
  }

  /** `_set_cron_enabled` on the lines of the crontab, edited in place. */
  method SetCronEnabled(lines: array<string>, name: string, enabled: bool) returns (found: bool, changed: bool)
    modifies lines
    ensures lines[..] == Edited(old(lines[..]), false, name, enabled)
    ensures found <==> exists i :: 0 <= i < lines.Length && Strip(old(lines[i])) == StartLine(name)
    ensures changed <==> lines[..] != old(lines[..])
  {
    hide *;
    ghost var before := lines[..];
    var inTarget := false;
    changed := false;
    found := false;
    var index := 0;
    while index < lines.Length
      invariant 0 <= index <= lines.Length
      invariant forall i :: index <= i < lines.Length ==> lines[i] == before[i]
      invariant lines[..index] + Edited(before[index..], inTarget, name, enabled) == Edited(before, false, name, enabled)
      invariant found <==> exists i :: 0 <= i < index && Strip(before[i]) == StartLine(name)
      invariant changed <==> exists i :: 0 <= i < index && lines[i] != before[i]
    {
      EditedStep(before, index, inTarget, name, enabled);
      ghost var done := lines[..index];
      var raw := lines[index];
      var edited, lineChanged;
      inTarget, edited, lineChanged := EditLine(inTarget, raw, name, enabled);
      lines[index] := edited;
      changed := changed || lineChanged;
      found := found || Strip(raw) == StartLine(name);
      index := index + 1;
      assert lines[..index] == done + [edited];
    }
    assert lines[..] == lines[..index];
  }
}
