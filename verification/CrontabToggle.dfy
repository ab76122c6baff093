/** What the toggle keeps: the reader's view of the crontab, every line outside the block, and
    the original text once a disabled block is enabled again. */
module CrontabToggle {
  import opened Text
  import Sequences
  import opened Crontab
  import opened Wrappers

  // ---------------------------------------------------------------- markers

  /** The editor's marker test and the reader's name extraction agree. */
  lemma StartNameMatches(line: string, name: string)
    ensures IsStart(StartLine(name)) && StartName(StartLine(name)) == name
    ensures IsStart(line) ==> (StartName(line) == name <==> line == StartLine(name))
  {
    var full := StartLine(name);
    assert full == START + (name + END);
    assert full[|START|..] == name + END;
    if IsStart(line) {
      var rest := line[|START|..];
      assert line == START + rest;
      assert START[|START| - 1] == ':';
      // otherwise the last four characters would reach into the prefix, which ends with a colon
      assert |rest| >= |END|;
      assert rest[|rest| - |END|..] == END;
      assert rest == rest[..|rest| - |END|] + END;
    }
  }

  lemma MarkersDiffer(s: string)
    ensures !IsStart(DISABLED + s) && !IsClose(DISABLED + s)
    ensures IsStart(s) ==> IsComment(s) && !IsClose(s) && !StartsWith(s, DISABLED)
    ensures IsClose(s) ==> IsComment(s) && !StartsWith(s, DISABLED)
    ensures StartsWith(s, DISABLED) ==> IsComment(s)
  {
    assert (DISABLED + s)[2] == 's';
    assert (DISABLED + s)[..|START|][2] == (DISABLED + s)[2];
    assert |s| >= |START| ==> s[..|START|][2] == s[2] && s[..|START|][0] == s[0];
    assert |s| >= |DISABLED| ==> s[..|DISABLED|][2] == s[2] && s[..|DISABLED|][0] == s[0];
  }

  // ---------------------------------------------------------------- one disabled line

  lemma CoreParts(raw: string) returns (before: string, core: string, after: string)
    requires Strip(raw) != ""
    ensures core == Strip(raw) && raw == before + core + after
    ensures AllSpace(before) && AllSpace(after)
    ensures core != "" && !IsSpace(core[0]) && !IsSpace(core[|core| - 1]) && Trimmed(core)
  {
    hide RStrip, LStrip, IsSpace;
    before, after := StripParts(raw);
    core := Strip(raw);
  }

  lemma CommentedCore(before: string, core: string)
    requires AllSpace(before) && core != "" && Trimmed(core)
    ensures Trimmed(DISABLED + (before + core))
    ensures (before + core)[0] == '#' ==> core[0] == '#'
  {
    var commented := DISABLED + (before + core);
    assert commented[0] == '#' && commented[|commented| - 1] == core[|core| - 1];
    assert before != "" ==> (before + core)[0] == before[0];
    assert before == "" ==> before + core == core;
  }

  lemma RegroupMarker(marker: string, before: string, core: string, after: string)
    ensures "" + (marker + (before + core)) + after == marker + (before + core + after)
    ensures "" + core == core
  {
  }

  lemma StripCommentedOut(raw: string)
    requires Strip(raw) != ""
    ensures Strip(DISABLED + raw) == DISABLED + RStrip(raw)
    ensures RStrip(raw) != "" && LStrip(RStrip(raw)) == LStrip(Strip(raw))
    ensures RStrip(raw)[0] == '#' ==> Strip(raw)[0] == '#'
  {
    hide *;
    var before, core, after := CoreParts(raw);
    StripCore(before, core, after);
    LStripAfter(before, core);
    LStripAfter("", core);
    CommentedCore(before, core);
    StripCore("", DISABLED + (before + core), after);
    RegroupMarker(DISABLED, before, core, after);
  }

  /** The same jobs with the flag of block `name` set. */
  function WithEnabled(jobs: seq<Job>, name: string, enabled: bool): (r: seq<Job>)
    ensures |r| == |jobs|
    ensures forall i :: 0 <= i < |jobs| ==>
      r[i] == if jobs[i].name == name then jobs[i].(enabled := enabled) else jobs[i]
  {
    seq(|jobs|, i requires 0 <= i < |jobs| =>
      if jobs[i].name == name then jobs[i].(enabled := enabled) else jobs[i])
  }

  lemma WithEnabledConcat(a: seq<Job>, b: seq<Job>, name: string, enabled: bool)
    ensures WithEnabled(a + b, name, enabled) == WithEnabled(a, name, enabled) + WithEnabled(b, name, enabled)
  {
  }

  lemma SameJob(name: string, marked: string, plain: string)
    requires LStrip(marked) == LStrip(plain)
    requires marked != "" && plain != "" && !IsComment(marked) && !IsComment(plain)
    ensures PayloadJob(name, plain, true) == WithEnabled(PayloadJob(name, marked, false), name, true)
    ensures PayloadJob(name, marked, false) == WithEnabled(PayloadJob(name, plain, true), name, false)
  {
    hide LStrip, Word;
    assert Fields(marked, 5) == Fields(plain, 5);
  }

  lemma MarkedReads(current: Option<string>, name: string, raw: string)
    requires StartsWith(Strip(raw), DISABLED)
    ensures JobOn(Some(name), raw) == PayloadJob(name, Strip(raw)[|DISABLED|..], false)
    ensures BlockAfter(current, raw) == current
  {
    MarkersDiffer(Strip(raw));
    hide Strip, IsStart, IsClose, PayloadJob;
  }

  lemma PlainReads(current: Option<string>, name: string, raw: string)
    requires !IsComment(Strip(raw))
    ensures JobOn(Some(name), raw) == PayloadJob(name, Strip(raw), true)
    ensures BlockAfter(current, raw) == current
  {
    MarkersDiffer(Strip(raw));
    hide Strip, IsStart, IsClose, PayloadJob;
  }

  /** Commenting a schedule line out changes nothing the reader reports but the flag. */
  lemma CommentedOutReads(name: string, raw: string)
    requires IsSchedule(Strip(raw))
    ensures JobOn(Some(name), DISABLED + raw) == WithEnabled(JobOn(Some(name), raw), name, false)
  {
    hide Strip, RStrip, LStrip, PayloadJob, IsAssignment, JobOn, BlockAfter;
    var core, payload := Strip(raw), RStrip(raw);
    StripCommentedOut(raw);
    SameJob(name, payload, core);
    assert StartsWith(DISABLED + payload, DISABLED) && (DISABLED + payload)[|DISABLED|..] == payload;
    MarkedReads(None, name, DISABLED + raw);
    PlainReads(None, name, raw);
  }

  lemma CommentedOutNeutral(raw: string, current: Option<string>, inTarget: bool, name: string)
    requires IsSchedule(Strip(raw))
    ensures BlockAfter(current, raw) == current == BlockAfter(current, DISABLED + raw)
    ensures TargetAfter(inTarget, raw, name) == inTarget == TargetAfter(inTarget, DISABLED + raw, name)
  {
    hide Strip, RStrip, LStrip, Word, IsAssignment, StartLine;
    StripCommentedOut(raw);
    MarkersDiffer(RStrip(raw));
    MarkersDiffer(Strip(raw));
    StartNameMatches("", name);
  }

  // ---------------------------------------------------------------- whole crontabs

  /** No managed block starts before the one in progress is closed. */
  predicate Closed(lines: seq<string>, current: Option<string>) {
    lines != [] ==>
      && (IsStart(Strip(lines[0])) ==> current == None)
      && Closed(lines[1..], BlockAfter(current, lines[0]))
  }

  /** Inside closed blocks the editor's flag and the reader's block name say the same. */
  lemma TargetIsBlock(current: Option<string>, raw: string, name: string)
    requires IsStart(Strip(raw)) ==> current == None
    ensures TargetAfter(current == Some(name), raw, name) == (BlockAfter(current, raw) == Some(name))
  {
    hide Strip;
    StartNameMatches(Strip(raw), name);
    MarkersDiffer(Strip(raw));
  }

  /** No line that the editor takes for the target's holds an enabled job of another block. */
  predicate NoForeignJob(lines: seq<string>, current: Option<string>, inTarget: bool, name: string) {
    lines != [] ==>
      && (TargetAfter(inTarget, lines[0], name) && current != Some(name) ==> NoneEnabled(JobOn(current, lines[0])))
      && NoForeignJob(lines[1..], BlockAfter(current, lines[0]), TargetAfter(inTarget, lines[0], name), name)
  }

  predicate NoneEnabled(jobs: seq<Job>) {
    forall job :: job in jobs ==> !job.enabled
  }

  /** The jobs of a line belong to the reader's block, and only a schedule without the marker is enabled. */
  lemma LineJobs(current: Option<string>, raw: string)
    ensures forall job :: job in JobOn(current, raw) ==> current == Some(job.name) && job.enabled == IsSchedule(Strip(raw))
  {
    hide Strip, Word, LStrip, Fields;
    MarkersDiffer(Strip(raw));
  }

  lemma ForeignFlags(jobs: seq<Job>, owner: string, name: string)
    requires forall job :: job in jobs ==> job.name == owner && job.enabled
    requires owner != name
    ensures WithEnabled(jobs, owner, false) == WithEnabled(jobs, name, false) <==> NoneEnabled(jobs)
  {
    if jobs != [] {
      assert jobs[0] in jobs;
      assert WithEnabled(jobs, owner, false)[0] != WithEnabled(jobs, name, false)[0];
    }
  }

  lemma UnchangedFlags(jobs: seq<Job>, name: string)
    requires forall job :: job in jobs ==> job.name != name || !job.enabled
    ensures WithEnabled(jobs, name, false) == jobs
  {
    assert forall i :: 0 <= i < |jobs| ==> jobs[i] in jobs;
  }

  lemma DisabledLineReads(current: Option<string>, inTarget: bool, raw: string, name: string)
    requires current == Some(name) ==> inTarget
    ensures var edited := EditedLine(inTarget, raw, name, false);
            && BlockAfter(current, edited) == BlockAfter(current, raw)
            && |JobOn(current, edited)| == |JobOn(current, raw)|
            && (JobOn(current, edited) == WithEnabled(JobOn(current, raw), name, false)
                <==> (TargetAfter(inTarget, raw, name) && current != Some(name) ==> NoneEnabled(JobOn(current, raw))))
    ensures BlockAfter(current, raw) == Some(name) ==> TargetAfter(inTarget, raw, name)
  {
    LineJobs(current, raw);
    MarkersDiffer(Strip(raw));
    StartNameMatches(Strip(raw), name);
    hide Strip, IsAssignment, JobOn, StartLine, StartName, WithEnabled;
    if IsSchedule(Strip(raw)) && inTarget {
      CommentedOutNeutral(raw, current, true, name);
      if current.Some? {
        CommentedOutReads(current.value, raw);
        if current.value != name {
          ForeignFlags(JobOn(current, raw), current.value, name);
        }
      } else {
        NoBlockNoJob(raw);
        NoBlockNoJob(DISABLED + raw);
        UnchangedFlags([], name);
      }
    } else {
      UnchangedFlags(JobOn(current, raw), name);
    }
  }

  lemma NoBlockNoJob(raw: string)
    ensures JobOn(None, raw) == []
  {
    hide Strip;
  }

  lemma SplitEqual(a: seq<Job>, x: seq<Job>, b: seq<Job>, y: seq<Job>)
    requires |a| == |b|
    ensures a + x == b + y <==> a == b && x == y
  {
    assert (a + x)[..|a|] == a && (a + x)[|a|..] == x;
    assert (b + y)[..|b|] == b && (b + y)[|b|..] == y;
  }

  /** The editor goes on through further starts of other blocks until a close; the reader does not. For
      every text, disabling changes exactly the target's flag in what the reader reports if and only if the
      editor meets no enabled job of another block. */
  lemma {:induction false} DisableReadsIff(lines: seq<string>, current: Option<string>, inTarget: bool, name: string)
    requires current == Some(name) ==> inTarget
    ensures JobsFrom(Edited(lines, inTarget, name, false), current) == WithEnabled(JobsFrom(lines, current), name, false)
            <==> NoForeignJob(lines, current, inTarget, name)
    ensures |JobsFrom(Edited(lines, inTarget, name, false), current)| == |JobsFrom(lines, current)|
  {
    if lines == [] {
      UnchangedFlags([], name);
    } else {
      hide JobOn, BlockAfter, TargetAfter, EditedLine, NoneEnabled, WithEnabled;
      var raw, rest, next, inNext := lines[0], lines[1..], BlockAfter(current, lines[0]), TargetAfter(inTarget, lines[0], name);
      DisabledLineReads(current, inTarget, raw, name);
      DisableReadsIff(rest, next, inNext, name);
      WithEnabledConcat(JobOn(current, raw), JobsFrom(rest, next), name, false);
      var edited := EditedLine(inTarget, raw, name, false);
      assert Edited(lines, inTarget, name, false)[1..] == Edited(rest, inNext, name, false);
      SplitEqual(JobOn(current, edited), JobsFrom(Edited(rest, inNext, name, false), next),
                 WithEnabled(JobOn(current, raw), name, false), WithEnabled(JobsFrom(rest, next), name, false));
    }
  }

  lemma {:induction false} ClosedIsOwn(lines: seq<string>, current: Option<string>, name: string)
    requires Closed(lines, current)
    ensures NoForeignJob(lines, current, current == Some(name), name)
  {
    if lines != [] {
      hide BlockAfter, TargetAfter, Strip;
      TargetIsBlock(current, lines[0], name);
      OwnJobs(current, lines[0], name);
      ClosedIsOwn(lines[1..], BlockAfter(current, lines[0]), name);
    }
  }

  lemma OwnJobs(current: Option<string>, raw: string, name: string)
    ensures TargetAfter(current == Some(name), raw, name) && current != Some(name) ==> NoneEnabled(JobOn(current, raw))
  {
    StartNameMatches("", name);
    hide Strip, Fields, IsAssignment, IsStart;
  }

  /** When every block is closed before the next one starts, disabling changes exactly the target's flag. */
  lemma DisableReads(lines: seq<string>, name: string)
    requires Closed(lines, None)
    ensures JobsFrom(Edited(lines, false, name, false), None) == WithEnabled(JobsFrom(lines, None), name, false)
  {
    hide JobsFrom, Edited, NoForeignJob;
    ClosedIsOwn(lines, None, name);
    DisableReadsIff(lines, None, false, name);
  }

  lemma StartRead(current: Option<string>, inTarget: bool, name: string, block: string)
    ensures var line := StartLine(block);
            && BlockAfter(current, line) == Some(block)
            && TargetAfter(inTarget, line, name) == (inTarget || block == name)
  {
    var line := StartLine(block);
    assert line[0] == '#' && line[|line| - 1] == '>';
    StripNothing(line);
    StartNameMatches(line, block);
    StartNameMatches(line, name);
    MarkersDiffer(line);
    hide Strip, StartLine, StartName;
  }

  lemma EnabledSchedule(name: string, schedule: string)
    requires Trimmed(schedule) && IsSchedule(schedule) && |Fields(schedule, 5)| == 6
    ensures |JobOn(Some(name), schedule)| == 1 && !NoneEnabled(JobOn(Some(name), schedule))
    ensures forall target :: TargetAfter(true, schedule, target)
  {
    hide Strip, Fields, IsAssignment, StartLine, Trimmed;
    StripNothing(schedule);
    MarkersDiffer(schedule);
    PlainReads(None, name, schedule);
    var jobs := JobOn(Some(name), schedule);
    assert |jobs| == 1 ==> jobs[0] in jobs;
  }

  /** The job of a block that starts before the target is closed is disabled with it. */
  lemma UnclosedBlockSpills(name: string, other: string, schedule: string)
    requires other != name && Trimmed(schedule) && IsSchedule(schedule) && |Fields(schedule, 5)| == 6
    ensures var lines := [StartLine(name), StartLine(other), schedule];
            JobsFrom(Edited(lines, false, name, false), None) != WithEnabled(JobsFrom(lines, None), name, false)
  {
    hide *;
    hide JobOn, BlockAfter, TargetAfter, StartLine, NoneEnabled;
    var lines := [StartLine(name), StartLine(other), schedule];
    StartRead(None, false, name, name);
    StartRead(Some(name), true, name, other);
    EnabledSchedule(other, schedule);
    SpillIsForeign(lines, name, other);
    DisableReadsIff(lines, None, false, name);
  }

  lemma SpillIsForeign(lines: seq<string>, name: string, other: string)
    requires |lines| == 3 && other != name
    requires BlockAfter(None, lines[0]) == Some(name) && BlockAfter(Some(name), lines[1]) == Some(other)
    requires TargetAfter(false, lines[0], name) && TargetAfter(true, lines[1], name) && TargetAfter(true, lines[2], name)
    requires !NoneEnabled(JobOn(Some(other), lines[2]))
    ensures !NoForeignJob(lines, None, false, name)
  {
    hide JobOn, BlockAfter, TargetAfter, NoneEnabled;
    var tail := lines[1..];
    assert tail[0] == lines[1] && tail[1..][0] == lines[2];
    assert !NoForeignJob(tail[1..], Some(other), true, name);
    assert !NoForeignJob(tail, Some(name), true, name);
  }

  lemma DisabledLineStays(inTarget: bool, raw: string, name: string)
    ensures var edited := EditedLine(inTarget, raw, name, false);
            && TargetAfter(inTarget, edited, name) == TargetAfter(inTarget, raw, name)
            && EditedLine(inTarget, edited, name, false) == edited
  {
    hide Strip, LStrip, RStrip, Word, IsAssignment;
    var line := Strip(raw);
    if EditedLine(inTarget, raw, name, false) != raw {
      CommentedOutNeutral(raw, None, inTarget, name);
      StripCommentedOut(raw);
      assert (DISABLED + RStrip(raw))[0] == '#';
    }
  }

  /** Disabling twice is disabling once. */
  lemma {:induction false} DisableIdempotent(lines: seq<string>, inTarget: bool, name: string)
    ensures var once := Edited(lines, inTarget, name, false);
            Edited(once, inTarget, name, false) == once
  {
    if lines != [] {
      hide TargetAfter, EditedLine;
      DisabledLineStays(inTarget, lines[0], name);
      DisableIdempotent(lines[1..], TargetAfter(inTarget, lines[0], name), name);
      var once := Edited(lines, inTarget, name, false);
      assert once[1..] == Edited(lines[1..], TargetAfter(inTarget, lines[0], name), name, false);
    }
  }

  /** No line of the target block is commented out by the toggle yet. */
  predicate InitiallyEnabled(lines: seq<string>, inTarget: bool, name: string) {
    lines != [] ==>
      var next := TargetAfter(inTarget, lines[0], name);
      && (next ==> !StartsWith(Strip(lines[0]), DISABLED))
      && InitiallyEnabled(lines[1..], next, name)
  }

  lemma EnabledAgainLine(inTarget: bool, raw: string, name: string)
    ensures var disabled := EditedLine(inTarget, raw, name, false);
            EditedLine(inTarget, disabled, name, true) == raw
            <==> (TargetAfter(inTarget, raw, name) ==> !StartsWith(Strip(raw), DISABLED))
  {
    hide Strip, LStrip, RStrip, Word, IsAssignment;
    var disabled := EditedLine(inTarget, raw, name, false);
    StartNameMatches("", name);
    MarkersDiffer(Strip(raw));
    if disabled != raw {
      CommentedOutNeutral(raw, None, inTarget, name);
      StripCommentedOut(raw);
      assert StartsWith(DISABLED + RStrip(raw), DISABLED);
      assert StartsWith(DISABLED + raw, DISABLED) && (DISABLED + raw)[|DISABLED|..] == raw;
    } else {
      EditChangesLine(raw);
    }
  }

  // ---------------------------------------------------------------- enabling

  /** What stands behind the marker is a schedule and not yet another comment. */
  predicate PlainPayload(raw: string) {
    StartsWith(Strip(raw), DISABLED) ==> !IsComment(LStrip(Strip(raw)[|DISABLED|..]))
  }

  lemma PayloadParts(payload: string) returns (gap: string, core: string)
    requires payload != "" && !IsSpace(payload[|payload| - 1])
    ensures payload == gap + core && AllSpace(gap)
    ensures core == LStrip(payload) && core != "" && Trimmed(core)
  {
    hide LStrip, IsSpace;
    gap := LStripParts(payload);
    core := LStrip(payload);
    LStripKeeps(payload, |payload| - 1);
  }

  lemma PayloadOf(line: string) returns (payload: string)
    requires StartsWith(line, DISABLED) && Trimmed(line)
    ensures payload == line[|DISABLED|..] && line == DISABLED + payload
    ensures payload != "" && !IsSpace(payload[|payload| - 1])
  {
    payload := line[|DISABLED|..];
    assert DISABLED[|DISABLED| - 1] == ' ';
    assert line[..|DISABLED|][|DISABLED| - 1] == line[|DISABLED| - 1];
  }

  lemma StripAroundPayload(before: string, payload: string, after: string)
    requires AllSpace(before) && AllSpace(after)
    requires payload != "" && !IsSpace(payload[|payload| - 1])
    ensures Strip(before + payload + after) == LStrip(payload) != ""
    ensures LStrip(LStrip(payload)) == LStrip(payload)
  {
    hide *;
    var gap, word := PayloadParts(payload);
    AllSpaceConcat(before, gap);
    StripCore(before + gap, word, after);
    LStripOfTrimmed(word);
    Sequences.Regroup(before, gap, word);
  }

  lemma StripUncommented(raw: string)
    requires StartsWith(Strip(raw), DISABLED)
    ensures var payload := Strip(raw)[|DISABLED|..];
            && payload != ""
            && Strip(RemoveFirst(raw, DISABLED)) == LStrip(payload) != ""
            && LStrip(LStrip(payload)) == LStrip(payload)
  {
    hide *;
    var before, core, after := CoreParts(raw) by { assert Strip(raw) != "" by { NonEmptyMarked(Strip(raw)); } }
    var payload := PayloadOf(core);
    EnabledLine(before, payload, after);
    StripAroundPayload(before, payload, after);
  }

  lemma NonEmptyMarked(line: string)
    requires StartsWith(line, DISABLED)
    ensures |line| >= |DISABLED| && line != ""
  {
  }

  lemma LStripOfTrimmed(word: string)
    requires word != "" && Trimmed(word)
    ensures LStrip(word) == word
  {
    assert "" + word == word;
    LStripAfter("", word);
  }

  lemma UncommentedReads(current: Option<string>, raw: string, name: string)
    requires StartsWith(Strip(raw), DISABLED) && PlainPayload(raw)
    ensures var edited := RemoveFirst(raw, DISABLED);
            && JobOn(Some(name), edited) == WithEnabled(JobOn(Some(name), raw), name, true)
            && BlockAfter(current, edited) == current == BlockAfter(current, raw)
  {
    hide Strip, LStrip, RemoveFirst, PayloadJob, JobOn, BlockAfter;
    StripUncommented(raw);
    NotCommentAfterStrip(Strip(raw)[|DISABLED|..]);
    SameJob(name, Strip(raw)[|DISABLED|..], LStrip(Strip(raw)[|DISABLED|..]));
    MarkedReads(current, name, raw);
    PlainReads(current, name, RemoveFirst(raw, DISABLED));
  }

  lemma NotCommentAfterStrip(payload: string)
    requires !IsComment(LStrip(payload))
    ensures !IsComment(payload)
  {
    if payload != "" && !IsSpace(payload[0]) {
      assert LStrip(payload) == payload;
    }
  }

  lemma MarkedLine(line: string)
    requires line != "" && Trimmed(line)
    ensures var marked := DISABLED + line;
            && Trimmed(marked) && Strip(marked) == marked != ""
            && StartsWith(marked, DISABLED) && IsComment(marked)
            && marked[|DISABLED|..] == line == RemoveFirst(marked, DISABLED)
  {
    hide Strip;
    var marked := DISABLED + line;
    assert marked[0] == '#' && marked[|marked| - 1] == line[|line| - 1];
    StripNothing(marked);
  }

  /** Enabling can make a job appear: a doubly disabled schedule line is no
      job to the reader, and enabling once turns it into a disabled job. */
  lemma DoublyDisabledAppears(name: string, schedule: string)
    requires Trimmed(schedule) && IsSchedule(schedule) && |Fields(schedule, 5)| == 6
    ensures var raw := DISABLED + (DISABLED + schedule);
            && JobOn(Some(name), raw) == []
            && |JobOn(Some(name), EditedLine(true, raw, name, true))| == 1
  {
    hide Strip, LStrip, Fields, IsAssignment, RemoveFirst, IsStart, IsClose, StartsWith, StartLine, Trimmed;
    var once := DISABLED + schedule;
    var raw := DISABLED + once;
    MarkedLine(schedule);
    MarkedLine(once);
    StartNameMatches(raw, name);
    MarkersDiffer(schedule);
    MarkersDiffer(once);
  }

  // ---------------------------------------------------------------- there and back

  lemma EditedCons(raw: string, rest: seq<string>, inTarget: bool, name: string, enabled: bool)
    ensures Edited([raw] + rest, inTarget, name, enabled)
         == [EditedLine(inTarget, raw, name, enabled)] + Edited(rest, TargetAfter(inTarget, raw, name), name, enabled)
  {
    hide EditedLine, TargetAfter;
    assert ([raw] + rest)[1..] == rest;
  }

  lemma RestoreStep(raw: string, rest: seq<string>, inTarget: bool, name: string)
    ensures var next := TargetAfter(inTarget, raw, name);
            Edited(Edited([raw] + rest, inTarget, name, false), inTarget, name, true) == [raw] + rest
            <==> && (next ==> !StartsWith(Strip(raw), DISABLED))
                 && Edited(Edited(rest, next, name, false), next, name, true) == rest
  {
    hide *;
    var next := TargetAfter(inTarget, raw, name);
    var disabled, rest' := EditedLine(inTarget, raw, name, false), Edited(rest, next, name, false);
    EnabledAgainLine(inTarget, raw, name);
    DisabledLineStays(inTarget, raw, name);
    EditedCons(raw, rest, inTarget, name, false);
    EditedCons(disabled, rest', inTarget, name, true);
    Sequences.ConsEqual(EditedLine(inTarget, disabled, name, true), Edited(rest', next, name, true), raw, rest);
  }

  /** Disabling and then enabling gives the original crontab back exactly when the block had no
      disabled line to begin with: enabling cannot tell old comments from its own. */
  lemma {:induction false} DisableEnableRestores(lines: seq<string>, inTarget: bool, name: string)
    ensures Edited(Edited(lines, inTarget, name, false), inTarget, name, true) == lines
            <==> InitiallyEnabled(lines, inTarget, name)
  {
    if lines != [] {
      hide TargetAfter, EditedLine, Edited, Strip, StartsWith;
      assert lines == [lines[0]] + lines[1..];
      RestoreStep(lines[0], lines[1..], inTarget, name);
      DisableEnableRestores(lines[1..], TargetAfter(inTarget, lines[0], name), name);
    }
  }

  /** Line `i` lies in no block of this name: every earlier start has been closed by then. */
  ghost predicate Outside(lines: seq<string>, name: string, i: nat)
    requires i < |lines|
  {
    forall j :: 0 <= j < i && Strip(lines[j]) == StartLine(name) ==>
      exists k :: j < k <= i && IsClose(Strip(lines[k]))
  }

  lemma {:induction false} EditedAt(lines: seq<string>, inTarget: bool, name: string, enabled: bool, i: nat)
    requires i < |lines|
    requires inTarget ==> exists k :: 0 <= k <= i && IsClose(Strip(lines[k]))
    requires Outside(lines, name, i)
    ensures Edited(lines, inTarget, name, enabled)[i] == lines[i]
  {
    hide Strip, IsClose, StartLine, RemoveFirst, IsSchedule;
    var next := TargetAfter(inTarget, lines[0], name);
    if i > 0 {
      var rest := lines[1..];
      if next {
        if Strip(lines[0]) == StartLine(name) {
          var k :| 0 < k <= i && IsClose(Strip(lines[k]));
          assert IsClose(Strip(rest[k - 1]));
        } else {
          var k :| 0 <= k <= i && IsClose(Strip(lines[k]));
          assert IsClose(Strip(rest[k - 1]));
        }
      }
      forall j | 0 <= j < i - 1 && Strip(rest[j]) == StartLine(name)
        ensures exists k :: j < k <= i - 1 && IsClose(Strip(rest[k]))
      {
        assert Strip(lines[j + 1]) == StartLine(name);
        var k :| j + 1 < k <= i && IsClose(Strip(lines[k]));
        assert IsClose(Strip(rest[k - 1]));
      }
      EditedAt(rest, next, name, enabled, i - 1);
    }
  }

  /** Lines outside the block never change, whether enabling or disabling. */
  lemma OutsideUnchanged(lines: seq<string>, name: string, enabled: bool, i: nat)
    requires i < |lines| && Outside(lines, name, i)
    ensures Edited(lines, false, name, enabled)[i] == lines[i]
  {
    EditedAt(lines, false, name, enabled, i);
  }
}
