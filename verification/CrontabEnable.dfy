/** Exactly when enabling a block changes nothing but the flags in what the reader reports. */
module CrontabEnable {
  import opened Text
  import opened Wrappers
  import opened Crontab
  import opened CrontabToggle

  // ---------------------------------------------------------------- one marked line

  predicate IsMarked(raw: string) {
    StartsWith(Strip(raw), DISABLED)
  }

  /** What stands behind the marker, as the reader sees it before enabling. */
  function Payload(raw: string): string
    requires IsMarked(raw)
  {
    Strip(raw)[|DISABLED|..]
  }

  /** The stripped line once the marker is off. */
  function Core(raw: string): string
    requires IsMarked(raw)
  {
    LStrip(Payload(raw))
  }

  /** The block goes on behind the line without its marker. */
  predicate KeepsBlock(name: string, raw: string)
    requires IsMarked(raw)
  {
    !IsClose(Core(raw)) && (IsStart(Core(raw)) ==> StartName(Core(raw)) == name)
  }

  /** A schedule under a second marker: no job to the reader before, a disabled one after. */
  predicate Appears(name: string, raw: string)
    requires IsMarked(raw)
  {
    StartsWith(Core(raw), DISABLED) && PayloadJob(name, Core(raw)[|DISABLED|..], false) != []
  }

  /** A comment behind the marker and further blanks: the reader takes it for a job before, and for a
      comment after. */
  predicate Disappears(name: string, raw: string)
    requires IsMarked(raw)
  {
    IsComment(Core(raw)) && PayloadJob(name, Payload(raw), false) != []
  }

  predicate Harmless(name: string, raw: string)
    requires IsMarked(raw)
  {
    KeepsBlock(name, raw) && !Appears(name, raw) && !Disappears(name, raw)
  }

  /** What the reader makes of the line before and after. */
  lemma MarkedLineReads(name: string, raw: string)
    requires IsMarked(raw)
    ensures var edited := RemoveFirst(raw, DISABLED);
            && Strip(edited) == Core(raw)
            && BlockAfter(Some(name), raw) == Some(name)
            && JobOn(Some(name), raw) == PayloadJob(name, Payload(raw), false)
            && (!IsComment(Core(raw)) ==>
                  BlockAfter(Some(name), edited) == Some(name)
                  && JobOn(Some(name), edited) == WithEnabled(JobOn(Some(name), raw), name, true))
  {
    hide Strip, LStrip, RemoveFirst, PayloadJob, JobOn, BlockAfter;
    StripUncommented(raw);
    MarkedReads(Some(name), name, raw);
    if !IsComment(Core(raw)) {
      UncommentedReads(Some(name), raw, name);
    }
  }

  lemma CommentReads(name: string, edited: string)
    requires IsComment(Strip(edited))
    ensures BlockAfter(Some(name), edited) == Some(name) <==>
              !IsClose(Strip(edited)) && (IsStart(Strip(edited)) ==> StartName(Strip(edited)) == name)
    ensures IsStart(Strip(edited)) || IsClose(Strip(edited)) ==> JobOn(Some(name), edited) == []
    ensures !IsStart(Strip(edited)) && !IsClose(Strip(edited)) ==>
              JobOn(Some(name), edited) ==
                if StartsWith(Strip(edited), DISABLED) then PayloadJob(name, Strip(edited)[|DISABLED|..], false) else []
  {
    MarkersDiffer(Strip(edited));
    hide Strip, StartName, Fields, IsAssignment;
  }

  lemma JobFlag(name: string, payload: string)
    ensures forall job :: job in PayloadJob(name, payload, false) ==> job.name == name && !job.enabled
    ensures |PayloadJob(name, payload, false)| <= 1
    ensures WithEnabled(PayloadJob(name, payload, false), name, true) == [] <==> PayloadJob(name, payload, false) == []
  {
    hide Fields, IsAssignment, IsComment;
  }

  /** For one line of the block: enabling keeps the block and changes nothing but the flag of the job
      exactly when the line is harmless. */
  lemma EnabledLineIff(name: string, raw: string)
    requires IsMarked(raw)
    ensures var edited := RemoveFirst(raw, DISABLED);
            (BlockAfter(Some(name), edited) == Some(name)
             && JobOn(Some(name), edited) == WithEnabled(JobOn(Some(name), raw), name, true))
            <==> Harmless(name, raw)
  {
    hide Strip, LStrip, RemoveFirst, PayloadJob, JobOn, BlockAfter, Payload, StartName, WithEnabled;
    MarkedLineReads(name, raw);
    JobFlag(name, Payload(raw));
    if IsComment(Core(raw)) {
      MarkersDiffer(Core(raw));
      CommentReads(name, RemoveFirst(raw, DISABLED));
      if StartsWith(Core(raw), DISABLED) {
        JobFlag(name, Core(raw)[|DISABLED|..]);
        FlagsDiffer(name, PayloadJob(name, Core(raw)[|DISABLED|..], false), PayloadJob(name, Payload(raw), false));
      }
    } else {
      NoCommentNoMarker(Core(raw));
    }
  }

  lemma NoCommentNoMarker(line: string)
    requires !IsComment(line)
    ensures !IsStart(line) && !IsClose(line) && !StartsWith(line, DISABLED)
  {
    MarkersDiffer(line);
  }

  /** A disabled job is not one whose flag has been set. */
  lemma FlagsDiffer(name: string, appeared: seq<Job>, before: seq<Job>)
    requires forall job :: job in appeared ==> job.name == name && !job.enabled
    requires forall job :: job in before ==> job.name == name
    ensures appeared == WithEnabled(before, name, true) ==> appeared == []
  {
    assert appeared != [] ==> appeared[0] in appeared;
    assert before != [] ==> before[0] in before;
  }

  // ---------------------------------------------------------------- whole crontabs

  /** A line of the target block, when the reader of the edited text comes to it in block `after`. In the
      target block no job may appear or disappear. Once a payload that is a marker has moved the block,
      there must be no job to lose, and none that appears in the block moved to. */
  predicate LineSteady(after: Option<string>, raw: string, name: string) {
    if after == Some(name) then IsMarked(raw) ==> !Appears(name, raw) && !Disappears(name, raw)
    else JobOn(Some(name), raw) == [] && (after.Some? && IsMarked(raw) ==> !Appears(name, raw))
  }

  /** Every line of the target block is steady, where `before` and `after` are the blocks in which the
      reader comes to it in the original and in the edited text. */
  predicate Steady(lines: seq<string>, before: Option<string>, after: Option<string>, name: string) {
    lines != [] ==>
      && (before == Some(name) ==> LineSteady(after, lines[0], name))
      && Steady(lines[1..], BlockAfter(before, lines[0]), BlockAfter(after, EditedLine(before == Some(name), lines[0], name, true)), name)
  }

  predicate HasDisabled(jobs: seq<Job>, name: string) {
    exists i :: 0 <= i < |jobs| && jobs[i].name == name && !jobs[i].enabled
  }

  /** How many of the jobs belong to block `name`. */
  function Owned(jobs: seq<Job>, name: string): (n: nat)
    ensures n <= |jobs|
  {
    if jobs == [] then 0 else (if jobs[0].name == name then 1 else 0) + Owned(jobs[1..], name)
  }

  function Others(jobs: seq<Job>, name: string): nat {
    |jobs| - Owned(jobs, name)
  }

  lemma {:induction false} OwnedConcat(a: seq<Job>, b: seq<Job>, name: string)
    ensures Owned(a + b, name) == Owned(a, name) + Owned(b, name)
  {
    if a == [] {
      assert a + b == b;
    } else {
      assert (a + b)[1..] == a[1..] + b;
      OwnedConcat(a[1..], b, name);
    }
  }

  lemma {:induction false} OwnedWithEnabled(jobs: seq<Job>, name: string)
    ensures Owned(WithEnabled(jobs, name, true), name) == Owned(jobs, name)
  {
    if jobs != [] {
      assert WithEnabled(jobs, name, true)[1..] == WithEnabled(jobs[1..], name, true);
      OwnedWithEnabled(jobs[1..], name);
    }
  }

  lemma HasDisabledConcat(a: seq<Job>, b: seq<Job>, name: string)
    ensures HasDisabled(a, name) || HasDisabled(b, name) ==> HasDisabled(a + b, name)
  {
    if i :| 0 <= i < |a| && a[i].name == name && !a[i].enabled {
      assert (a + b)[i] == a[i];
    } else if i :| 0 <= i < |b| && b[i].name == name && !b[i].enabled {
      assert (a + b)[|a| + i] == b[i];
    }
  }

  /** What enabling can do to a list of jobs. Without a job of the target that is still disabled, the
      target has no more jobs than before, and the other blocks have no fewer. */
  predicate Drifts(before: seq<Job>, after: seq<Job>, name: string) {
    HasDisabled(after, name)
    || (Owned(after, name) <= Owned(before, name) && Others(after, name) >= Others(before, name))
  }

  /** And it does so visibly. */
  predicate Differs(before: seq<Job>, after: seq<Job>, name: string) {
    HasDisabled(after, name) || Owned(after, name) < Owned(before, name) || Others(after, name) > Others(before, name)
  }

  lemma DriftsConcat(a: seq<Job>, b: seq<Job>, a': seq<Job>, b': seq<Job>, name: string)
    requires Drifts(a, a', name) && Drifts(b, b', name)
    ensures Drifts(a + b, a' + b', name)
    ensures Differs(a, a', name) || Differs(b, b', name) ==> Differs(a + b, a' + b', name)
  {
    hide Owned, HasDisabled;
    OwnedConcat(a, b, name);
    OwnedConcat(a', b', name);
    HasDisabledConcat(a', b', name);
  }

  /** A job list and the same with the flag set differ in no such way. */
  lemma FlagOnly(jobs: seq<Job>, name: string)
    ensures Drifts(jobs, WithEnabled(jobs, name, true), name) && !Differs(jobs, WithEnabled(jobs, name, true), name)
  {
    OwnedWithEnabled(jobs, name);
  }

  lemma JobName(jobs: seq<Job>, name: string)
    requires |jobs| <= 1 && forall job :: job in jobs ==> job.name == name
    ensures forall other :: Owned(jobs, other) == if other == name then |jobs| else 0
  {
    if jobs != [] {
      assert jobs[0] in jobs && jobs[1..] == [];
    }
  }

  /** A line holds at most one job, of the block the reader is in; the block makes no other difference. */
  lemma OneJob(raw: string, a: string, b: string)
    ensures |JobOn(Some(a), raw)| == |JobOn(Some(b), raw)| <= 1
    ensures forall job :: job in JobOn(Some(a), raw) ==> job.name == a
    ensures JobOn(None, raw) == []
  {
    hide Strip, Fields, IsAssignment, IsComment, IsStart, IsClose, StartsWith;
  }

  lemma TouchedIsEdited(raw: string, name: string)
    requires IsMarked(raw)
    ensures TargetAfter(true, raw, name) && EditedLine(true, raw, name, true) == RemoveFirst(raw, DISABLED)
  {
    MarkersDiffer(Strip(raw));
    StartNameMatches(Strip(raw), name);
    hide Strip, RemoveFirst;
  }

  /** A marked line without its marker holds a job exactly if it held one that does not disappear or one
      appears; and one that appears is a disabled one. */
  lemma UnmarkedJob(name: string, raw: string)
    requires IsMarked(raw)
    ensures var before, after := JobOn(Some(name), raw), JobOn(Some(name), RemoveFirst(raw, DISABLED));
            && (Disappears(name, raw) ==> before != [])
            && (Appears(name, raw) ==> after != [] && HasDisabled(after, name))
            && (!Appears(name, raw) && Disappears(name, raw) ==> after == [])
            && (!Appears(name, raw) && !Disappears(name, raw) ==> after == WithEnabled(before, name, true))
  {
    hide Strip, LStrip, RemoveFirst, PayloadJob, JobOn, BlockAfter, Payload, StartName, WithEnabled;
    MarkedLineReads(name, raw);
    JobFlag(name, Payload(raw));
    if IsComment(Core(raw)) {
      MarkersDiffer(Core(raw));
      CommentReads(name, RemoveFirst(raw, DISABLED));
      if StartsWith(Core(raw), DISABLED) {
        JobFlag(name, Core(raw)[|DISABLED|..]);
        DisabledThere(name, PayloadJob(name, Core(raw)[|DISABLED|..], false));
      }
    } else {
      NoCommentNoMarker(Core(raw));
    }
  }

  lemma DisabledThere(name: string, jobs: seq<Job>)
    requires forall job :: job in jobs ==> job.name == name && !job.enabled
    ensures jobs != [] ==> HasDisabled(jobs, name)
  {
    if jobs != [] {
      assert jobs[0] in jobs;
    }
  }

  /** Two blocks in which the reader may come to the same line of the original and the edited text: they
      differ only inside the target. */
  predicate Moved(before: Option<string>, after: Option<string>, name: string) {
    after == before || before == Some(name)
  }

  lemma OutsideDrift(block: Option<string>, raw: string, name: string)
    requires block != Some(name)
    ensures EditedLine(false, raw, name, true) == raw
    ensures JobOn(block, raw) == WithEnabled(JobOn(block, raw), name, true)
  {
    hide JobOn, Strip, RemoveFirst;
    if block.Some? {
      OneJob(raw, block.value, name);
    } else {
      OneJob(raw, name, name);
    }
  }

  lemma CloseDrift(block: Option<string>, raw: string, name: string)
    requires IsClose(Strip(raw))
    ensures EditedLine(true, raw, name, true) == raw && !IsMarked(raw)
    ensures JobOn(block, raw) == [] && BlockAfter(block, raw) == None
  {
    MarkersDiffer(Strip(raw));
    StartNameMatches(Strip(raw), name);
    hide Strip, RemoveFirst, Fields, IsAssignment;
  }

  /** A line of the target that enabling leaves alone. */
  lemma UnmarkedDrift(raw: string, name: string)
    requires !IsMarked(raw) && !IsStart(Strip(raw)) && !IsClose(Strip(raw))
    ensures EditedLine(true, raw, name, true) == raw
    ensures JobOn(Some(name), raw) == WithEnabled(JobOn(Some(name), raw), name, true)
    ensures forall block :: BlockAfter(block, raw) == block
  {
    hide Strip, RemoveFirst, Fields, IsAssignment;
  }

  /** The job lists of one line read in the target before, and in another block after. */
  lemma MovedJob(b: seq<Job>, c: seq<Job>, a: seq<Job>, name: string, block: string)
    requires block != name && |a| == |c| <= 1 && |b| <= 1
    requires forall job :: job in b ==> job.name == name
    requires forall job :: job in a ==> job.name == block
    ensures Drifts(b, a, name)
    ensures b != [] || c != [] ==> Differs(b, a, name)
    ensures b == [] && c == [] ==> a == WithEnabled(b, name, true)
  {
    JobName(b, name);
    JobName(a, block);
  }

  lemma LostJob(b: seq<Job>, name: string)
    requires |b| <= 1 && forall job :: job in b ==> job.name == name
    ensures Drifts(b, [], name)
    ensures if b == [] then [] == WithEnabled(b, name, true) else Differs(b, [], name)
  {
    JobName(b, name);
  }

  /** A line of the target without its marker, while the reader is still in the target. */
  lemma StayingDrift(raw: string, name: string)
    requires IsMarked(raw)
    ensures var b, a := JobOn(Some(name), raw), JobOn(Some(name), RemoveFirst(raw, DISABLED));
            && Drifts(b, a, name)
            && (if LineSteady(Some(name), raw, name) then a == WithEnabled(b, name, true) else Differs(b, a, name))
  {
    hide JobOn, RemoveFirst, Appears, Disappears, IsMarked, HasDisabled, Owned, WithEnabled;
    UnmarkedJob(name, raw);
    OneJob(raw, name, name);
    LostJob(JobOn(Some(name), raw), name);
    FlagOnly(JobOn(Some(name), raw), name);
  }

  /** One line of the target, in the block the edits have moved the reader to. */
  lemma TargetDrift(after: Option<string>, raw: string, name: string)
    requires !IsStart(Strip(raw)) && !IsClose(Strip(raw))
    ensures var b, a := JobOn(Some(name), raw), JobOn(after, EditedLine(true, raw, name, true));
            && Drifts(b, a, name)
            && (if LineSteady(after, raw, name) then a == WithEnabled(b, name, true) else Differs(b, a, name))
  {
    hide JobOn, RemoveFirst, Appears, Disappears, IsMarked, EditedLine, Drifts, Differs, Strip, IsStart, IsClose, WithEnabled;
    var edited := EditedLine(true, raw, name, true);
    var b := JobOn(Some(name), raw);
    OneJob(raw, name, name);
    if IsMarked(raw) {
      TouchedIsEdited(raw, name);
      UnmarkedJob(name, raw);
      StayingDrift(raw, name);
    } else {
      UnmarkedDrift(raw, name);
      FlagOnly(b, name);
    }
    if after == None {
      OneJob(edited, name, name);
      LostJob(b, name);
    } else if after.value != name {
      OneJob(edited, name, after.value);
      OneJob(edited, after.value, name);
      MovedJob(b, JobOn(Some(name), edited), JobOn(after, edited), name, after.value);
    }
  }

  /** One line of the crontab in the blocks in which the reader comes to it. */
  lemma LineDrift(before: Option<string>, after: Option<string>, raw: string, name: string)
    requires IsStart(Strip(raw)) ==> before == None
    requires Moved(before, after, name)
    ensures var edited := EditedLine(before == Some(name), raw, name, true);
            var b, a := JobOn(before, raw), JobOn(after, edited);
            && Moved(BlockAfter(before, raw), BlockAfter(after, edited), name)
            && Drifts(b, a, name)
            && (if before == Some(name) ==> LineSteady(after, raw, name) then a == WithEnabled(b, name, true)
                else Differs(b, a, name))
  {
    hide JobOn, BlockAfter, EditedLine, Drifts, Differs, Strip, IsStart, IsClose, WithEnabled, LineSteady;
    FlagOnly(JobOn(before, raw), name);
    if before != Some(name) {
      OutsideDrift(before, raw, name);
    } else if IsClose(Strip(raw)) {
      CloseDrift(before, raw, name);
      CloseDrift(after, raw, name);
      TargetClose(after, raw, name);
    } else {
      StaysInTarget(raw, name);
      TargetDrift(after, raw, name);
    }
  }

  lemma TargetClose(after: Option<string>, raw: string, name: string)
    requires IsClose(Strip(raw))
    ensures LineSteady(after, raw, name)
    ensures WithEnabled([], name, true) == []
  {
    hide JobOn, IsMarked, Appears, Disappears;
    CloseDrift(Some(name), raw, name);
  }

  lemma StaysInTarget(raw: string, name: string)
    requires !IsStart(Strip(raw)) && !IsClose(Strip(raw))
    ensures BlockAfter(Some(name), raw) == Some(name)
  {
    hide Strip;
  }

  /** The reader on the original and on the edited text, one line further. */
  lemma ReadStep(lines: seq<string>, before: Option<string>, after: Option<string>, name: string)
    requires lines != [] && (IsStart(Strip(lines[0])) ==> before == None)
    ensures var next := BlockAfter(before, lines[0]);
            var edited := EditedLine(before == Some(name), lines[0], name, true);
            JobsFrom(Edited(lines, before == Some(name), name, true), after)
            == JobOn(after, edited) + JobsFrom(Edited(lines[1..], next == Some(name), name, true), BlockAfter(after, edited))
  {
    hide JobOn, BlockAfter, TargetAfter, EditedLine, Strip, IsStart;
    TargetIsBlock(before, lines[0], name);
    var edited := Edited(lines, before == Some(name), name, true);
    assert edited[1..] == Edited(lines[1..], TargetAfter(before == Some(name), lines[0], name), name, true);
  }

  lemma {:induction false} ReadsDrift(lines: seq<string>, before: Option<string>, after: Option<string>, name: string)
    requires Closed(lines, before) && Moved(before, after, name)
    ensures var b, a := JobsFrom(lines, before), JobsFrom(Edited(lines, before == Some(name), name, true), after);
            && Drifts(b, a, name)
            && (if Steady(lines, before, after, name) then a == WithEnabled(b, name, true) else Differs(b, a, name))
  {
    FlagOnly([], name);
    if lines != [] {
      hide JobOn, BlockAfter, EditedLine, Drifts, Differs, Strip, IsStart, WithEnabled, LineSteady, Moved, Edited;
      var raw, rest := lines[0], lines[1..];
      var edited := EditedLine(before == Some(name), raw, name, true);
      var next, next' := BlockAfter(before, raw), BlockAfter(after, edited);
      LineDrift(before, after, raw, name);
      ReadStep(lines, before, after, name);
      ReadsDrift(rest, next, next', name);
      var b, a := JobsFrom(rest, next), JobsFrom(Edited(rest, next == Some(name), name, true), next');
      DriftsConcat(JobOn(before, raw), b, JobOn(after, edited), a, name);
      WithEnabledConcat(JobOn(before, raw), b, name, true);
    }
  }

  /** Enabling a block changes nothing but its flags in what the reader reports, exactly when every line of
      the block is steady, payloads that are block markers included. */
  lemma EnableReadsIff(lines: seq<string>, name: string)
    requires Closed(lines, None)
    ensures JobsFrom(Edited(lines, false, name, true), None) == WithEnabled(JobsFrom(lines, None), name, true)
            <==> Steady(lines, None, None, name)
  {
    hide JobsFrom, Edited, Steady, Drifts, Differs, WithEnabled;
    ReadsDrift(lines, None, None, name);
    FlagOnly(JobsFrom(lines, None), name);
  }

  /** No line of the target block moves it, makes a job appear or makes one disappear. */
  predicate AllHarmless(lines: seq<string>, current: Option<string>, name: string) {
    lines != [] ==>
      && (current == Some(name) && IsMarked(lines[0]) ==> Harmless(name, lines[0]))
      && AllHarmless(lines[1..], BlockAfter(current, lines[0]), name)
  }

  lemma HarmlessStays(current: Option<string>, raw: string, name: string)
    requires IsStart(Strip(raw)) ==> current == None
    requires current == Some(name) && IsMarked(raw) ==> Harmless(name, raw)
    ensures BlockAfter(current, EditedLine(current == Some(name), raw, name, true)) == BlockAfter(current, raw)
  {
    hide JobOn, BlockAfter, RemoveFirst, Harmless, Strip, IsStart, IsClose, EditedLine, IsMarked;
    if current != Some(name) {
      OutsideDrift(current, raw, name);
    } else if IsMarked(raw) {
      TouchedIsEdited(raw, name);
      EnabledLineIff(name, raw);
      MarkedLineReads(name, raw);
    } else if IsClose(Strip(raw)) {
      CloseDrift(current, raw, name);
    } else {
      UnmarkedDrift(raw, name);
    }
  }

  /** Harmless lines are steady: the reader stays in the same block before and after. */
  lemma {:induction false} HarmlessIsSteady(lines: seq<string>, current: Option<string>, name: string)
    requires Closed(lines, current) && AllHarmless(lines, current, name)
    ensures Steady(lines, current, current, name)
  {
    if lines != [] {
      hide JobOn, BlockAfter, EditedLine, Appears, Disappears, KeepsBlock, IsMarked, Strip;
      HarmlessStays(current, lines[0], name);
      HarmlessIsSteady(lines[1..], BlockAfter(current, lines[0]), name);
    }
  }

  // ---------------------------------------------------------------- the three ways it goes wrong

  lemma SameFields(a: string, b: string)
    requires LStrip(a) == LStrip(b)
    ensures Fields(a, 5) == Fields(b, 5) && IsAssignment(a) == IsAssignment(b)
  {
    hide LStrip, Word;
  }

  lemma IsJob(name: string, line: string, enabled: bool)
    requires line != "" && !IsComment(line) && !IsAssignment(line) && |Fields(line, 5)| == 6
    ensures |PayloadJob(name, line, enabled)| == 1
  {
    hide Fields, IsAssignment, IsComment;
  }

  lemma BlankIsNoHash(gap: string, text: string)
    requires gap != "" && AllSpace(gap)
    ensures gap + text != "" && !IsComment(gap + text)
  {
    assert (gap + text)[0] == gap[0];
  }

  lemma MarkedGap(gap: string, core: string)
    requires AllSpace(gap) && core != "" && Trimmed(core)
    ensures var raw := DISABLED + (gap + core);
            IsMarked(raw) && Payload(raw) == gap + core && Core(raw) == core
    ensures LStrip(gap + core) == LStrip(core)
  {
    hide Strip, LStrip, AllSpace, Trimmed;
    CommentedCore(gap, core);
    StripNothing(DISABLED + (gap + core));
    LStripOfTrimmed(core);
    LStripAfter(gap, core);
  }

  /** `DoublyDisabledAppears` shows a job that appears. Here is one that disappears: a comment that the
      reader takes for a schedule as long as blanks stand before it. */
  lemma CommentDisappears(name: string, gap: string, comment: string)
    requires gap != "" && AllSpace(gap) && comment != "" && Trimmed(comment) && IsComment(comment)
    requires !IsAssignment(comment) && |Fields(comment, 5)| == 6
    ensures var raw := DISABLED + (gap + comment); IsMarked(raw) && Disappears(name, raw)
  {
    hide *;
    MarkedGap(gap, comment);
    SameFields(gap + comment, comment);
    BlankIsNoHash(gap, comment);
    IsJob(name, gap + comment, false);
    DisappearsBy(name, DISABLED + (gap + comment));
  }

  lemma DisappearsBy(name: string, raw: string)
    requires IsMarked(raw) && IsComment(Core(raw)) && |PayloadJob(name, Payload(raw), false)| == 1
    ensures Disappears(name, raw)
  {
    hide PayloadJob;
  }

  lemma ReadTwo(raw: string, schedule: string, current: Option<string>)
    ensures JobsFrom([raw, schedule], current) == JobOn(current, raw) + JobOn(BlockAfter(current, raw), schedule)
  {
    hide JobOn, BlockAfter;
    assert [raw, schedule][1..] == [schedule] && [schedule][1..] == [];
    assert JobsFrom([schedule], BlockAfter(current, raw)) == JobOn(BlockAfter(current, raw), schedule) + [];
  }

  lemma EditTwo(raw: string, schedule: string, name: string)
    requires TargetAfter(true, raw, name)
    ensures Edited([raw, schedule], true, name, true) == [EditedLine(true, raw, name, true), EditedLine(true, schedule, name, true)]
  {
    hide EditedLine, TargetAfter;
    assert [raw, schedule][1..] == [schedule] && [schedule][1..] == [];
  }

  lemma ScheduleRead(name: string, schedule: string)
    requires Trimmed(schedule) && IsSchedule(schedule) && |Fields(schedule, 5)| == 6
    ensures |JobOn(Some(name), schedule)| == 1 && JobOn(None, schedule) == []
    ensures EditedLine(true, schedule, name, true) == schedule
  {
    hide Strip, Fields, IsAssignment, RemoveFirst, PayloadJob, StartLine, StartName;
    StripNothing(schedule);
    NoCommentNoMarker(schedule);
    PlainReads(None, name, schedule);
    IsJob(name, schedule, true);
  }

  lemma CloseMarkerRead(name: string, marker: string)
    requires Trimmed(marker) && IsClose(marker)
    ensures var raw := DISABLED + marker;
            && JobOn(Some(name), raw) == [] && BlockAfter(Some(name), raw) == Some(name)
            && TargetAfter(true, raw, name) && EditedLine(true, raw, name, true) == marker
    ensures JobOn(Some(name), marker) == [] && BlockAfter(Some(name), marker) == None
  {
    hide Strip, Fields, IsAssignment, RemoveFirst, StartName, Trimmed;
    assert IsComment(marker) by {
      assert marker[..|CLOSE|][0] == marker[0];
    }
    MarkersDiffer(marker);
    MarkedLine(marker);
    StripNothing(marker);
    StartNameMatches(DISABLED + marker, name);
    hide StartLine;
  }

  /** A payload that is a block marker: enabling it ends the block, and the schedules behind it are no
      jobs of the block any more. */
  lemma CloseMarkerEndsBlock(name: string, marker: string, schedule: string)
    requires Trimmed(marker) && IsClose(marker)
    requires Trimmed(schedule) && IsSchedule(schedule) && |Fields(schedule, 5)| == 6
    ensures var lines := [DISABLED + marker, schedule];
            && |JobsFrom(lines, Some(name))| == 1
            && JobsFrom(Edited(lines, true, name, true), Some(name)) == []
  {
    hide *;
    CloseMarkerRead(name, marker);
    ScheduleRead(name, schedule);
    ReadTwo(DISABLED + marker, schedule, Some(name));
    EditTwo(DISABLED + marker, schedule, name);
    ReadTwo(marker, schedule, Some(name));
  }

  // ---------------------------------------------------------------- why the blocks are taken to be closed

  /** A comment of six words, no marker of any kind. */
  predicate PlainComment(comment: string) {
    && comment != "" && Trimmed(comment) && IsComment(comment) && !IsAssignment(comment) && |Fields(comment, 5)| == 6
    && !IsStart(comment) && !IsClose(comment) && !StartsWith(comment, DISABLED)
  }

  /** Behind blanks and one marker it is a disabled job; without the marker it is none. */
  lemma OnceMarked(name: string, other: string, gap: string, comment: string)
    requires gap != "" && AllSpace(gap) && PlainComment(comment)
    ensures var plain := gap + comment;
            var once := DISABLED + plain;
            && IsMarked(once) && Trimmed(once)
            && EditedLine(true, once, name, true) == plain && TargetAfter(true, once, name)
            && |JobOn(Some(other), once)| == 1 && JobOn(Some(other), once)[0].name == other && JobOn(Some(other), plain) == []
            && BlockAfter(Some(other), once) == Some(other) == BlockAfter(Some(other), plain)
  {
    hide Strip, LStrip, PayloadJob, JobOn, BlockAfter, RemoveFirst, EditedLine, TargetAfter, Fields, IsAssignment, Trimmed;
    hide AllSpace, Payload, Core, IsMarked, IsStart, IsClose, StartsWith;
    var plain := gap + comment;
    var once := DISABLED + plain;
    MarkedGap(gap, comment);
    CommentedCore(gap, comment);
    MarkedLineReads(other, once);
    TouchedIsEdited(once, name);
    SameFields(plain, comment);
    BlankIsNoHash(gap, comment);
    IsJob(other, plain, false);
    JobFlag(other, plain);
    PrefixOff(plain);
    var jobs := JobOn(Some(other), once);
    assert jobs[0] in jobs;
    CommentLine(other, plain, comment);
  }

  lemma PrefixOff(plain: string)
    ensures RemoveFirst(DISABLED + plain, DISABLED) == plain
  {
    assert (DISABLED + plain)[..|DISABLED|] == DISABLED && (DISABLED + plain)[|DISABLED|..] == plain;
  }

  lemma CommentLine(other: string, raw: string, comment: string)
    requires Strip(raw) == comment && PlainComment(comment)
    ensures JobOn(Some(other), raw) == [] && BlockAfter(Some(other), raw) == Some(other)
  {
    hide Strip, Fields, IsAssignment, IsStart, IsClose, StartsWith;
  }

  /** Behind a second marker it is no job yet. */
  lemma TwiceMarked(name: string, other: string, once: string)
    requires IsMarked(once) && Trimmed(once)
    ensures var twice := DISABLED + once;
            && EditedLine(true, twice, name, true) == once && TargetAfter(true, twice, name)
            && JobOn(Some(other), twice) == [] && BlockAfter(Some(other), twice) == Some(other)
  {
    hide Strip, RemoveFirst, Fields, IsAssignment;
    var twice := DISABLED + once;
    StripNothing(once);
    MarkersDiffer(once);
    MarkedLine(once);
    TouchedIsEdited(twice, name);
    MarkedReads(Some(other), other, twice);
  }

  /** In a block that starts before the target is closed, enabling may turn one line into a job and an
      equal job into no job: two lines change, and the reader reports the same jobs. */
  lemma UnclosedCancels(name: string, other: string, gap: string, comment: string)
    requires other != name && gap != "" && AllSpace(gap) && PlainComment(comment)
    ensures var once := DISABLED + (gap + comment);
            var lines := [StartLine(name), StartLine(other), DISABLED + once, once];
            && Edited(lines, false, name, true) == [StartLine(name), StartLine(other), once, gap + comment]
            && JobsFrom(Edited(lines, false, name, true), None) == WithEnabled(JobsFrom(lines, None), name, true)
            && |JobsFrom(lines, None)| == 1
            && JobOn(Some(other), once) != JobOn(Some(other), DISABLED + once)
  {
    hide *;
    var plain := gap + comment;
    var once := DISABLED + plain;
    OnceMarked(name, other, gap, comment);
    TwiceMarked(name, other, once);
    StartRead(None, false, name, name);
    StartRead(Some(name), true, name, other);
    StartIsNoJob(None, name);
    StartIsNoJob(Some(name), other);
    StartStays(false, name, name);
    StartStays(true, name, other);
    ReadFour(StartLine(name), StartLine(other), DISABLED + once, once);
    ReadFour(StartLine(name), StartLine(other), once, plain);
    EditFour(StartLine(name), StartLine(other), DISABLED + once, once, name);
    OtherKept(JobOn(Some(other), once), name);
  }

  lemma StartIsNoJob(current: Option<string>, name: string)
    ensures JobOn(current, StartLine(name)) == []
  {
    var line := StartLine(name);
    assert line[0] == '#' && line[|line| - 1] == '>';
    StripNothing(line);
    StartNameMatches(line, name);
    hide Strip, StartName, StartLine;
  }

  lemma StartStays(inTarget: bool, name: string, block: string)
    ensures EditedLine(inTarget, StartLine(block), name, true) == StartLine(block)
  {
    var line := StartLine(block);
    assert line[0] == '#' && line[|line| - 1] == '>';
    StripNothing(line);
    StartNameMatches(line, block);
    MarkersDiffer(line);
    hide Strip, StartName, StartLine, RemoveFirst;
  }

  lemma ReadFour(a: string, b: string, c: string, d: string)
    ensures var x, y, z := BlockAfter(None, a), BlockAfter(BlockAfter(None, a), b), BlockAfter(BlockAfter(BlockAfter(None, a), b), c);
            JobsFrom([a, b, c, d], None) == JobOn(None, a) + (JobOn(x, b) + (JobOn(y, c) + JobOn(z, d)))
  {
    hide JobOn, BlockAfter;
    assert [a, b, c, d][1..] == [b, c, d] && [b, c, d][1..] == [c, d];
    ReadTwo(c, d, BlockAfter(BlockAfter(None, a), b));
  }

  lemma EditFour(a: string, b: string, c: string, d: string, name: string)
    requires TargetAfter(false, a, name) && TargetAfter(true, b, name) && TargetAfter(true, c, name)
    ensures Edited([a, b, c, d], false, name, true)
         == [EditedLine(false, a, name, true), EditedLine(true, b, name, true), EditedLine(true, c, name, true), EditedLine(true, d, name, true)]
  {
    hide EditedLine, TargetAfter;
    assert [a, b, c, d][1..] == [b, c, d] && [b, c, d][1..] == [c, d];
    EditTwo(c, d, name);
  }

  lemma OtherKept(jobs: seq<Job>, name: string)
    requires |jobs| == 1 && jobs[0].name != name
    ensures WithEnabled(jobs, name, true) == jobs
  {
  }
}
