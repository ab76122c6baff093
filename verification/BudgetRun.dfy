/** `TranscriptBudget.run`: polling an operation while its transcripts are checked. */
module BudgetRun {
  import opened Transcript
  import opened ClaudeBudget
  import opened BudgetExactness

  /** The operation as the poller sees it. `CancelledAndAwaited` is where the cleanup leaves an
      operation that was still going. */
  datatype Operation = NotStarted | Running | Finished(failed: bool) | CancelledAndAwaited

  /** One turn of the polling loop: the wait ends, either because the runner is cancelled or
      because time passed; then the check reads `snapshot`; then the operation may be found done. */
  datatype Tick = Tick(runnerCancelled: bool, snapshot: Snapshot, done: bool, failed: bool)

  datatype Outcome =
    | Returned            // the operation's result
    | OperationFailed     // the operation's own exception
    | Stopped(verdict: Verdict)
    | RunnerCancelled
    | StillPolling        // the schedule of ticks ends before the operation does

  /** The snapshots the first `n` checks looked at. */
  function Seen(first: Snapshot, ticks: seq<Tick>, n: nat): (r: seq<Snapshot>)
    requires n <= |ticks| + 1
    ensures |r| == n
  {
    if n == 0 then [] else [first] + seq(n - 1, i requires 0 <= i < n - 1 => ticks[i].snapshot)
  }

  /** The verdict of the check after `before`, on `snapshot`. */
  ghost function VerdictOn(start: Ledger, before: seq<Snapshot>, snapshot: Snapshot, parse: Parser,
                           inputLimit: int, outputLimit: int): Verdict
  {
    Judge(AfterScan(AfterChecks(start, before, parse), snapshot.paths, snapshot.files, parse), inputLimit, outputLimit)
  }

  /** The checks happened in order, each on the ledger the earlier ones left: `state` and every
      verdict are what the specification of the check gives for the snapshots seen. */
  ghost predicate InOrder(start: Ledger, state: Ledger, first: Snapshot, ticks: seq<Tick>, verdicts: seq<Verdict>,
                          parse: Parser, inputLimit: int, outputLimit: int)
  {
    && |verdicts| <= |ticks| + 1
    && state == AfterChecks(start, Seen(first, ticks, |verdicts|), parse)
    && forall k :: 0 <= k < |verdicts| ==>
         verdicts[k] == VerdictOn(start, Seen(first, ticks, k), if k == 0 then first else ticks[k - 1].snapshot,
                                  parse, inputLimit, outputLimit)
  }

  lemma FirstInOrder(start: Ledger, first: Snapshot, ticks: seq<Tick>, parse: Parser, inputLimit: int, outputLimit: int)
    ensures var scan := AfterScan(start, first.paths, first.files, parse);
            InOrder(start, scan.ledger, first, ticks, [Judge(scan, inputLimit, outputLimit)], parse, inputLimit, outputLimit)
  {
    assert Seen(first, ticks, 0) == [] && Seen(first, ticks, 1) == [] + [first];
    assert AfterChecks(start, [], parse) == start;
    ChecksStep(start, [], first, parse);
  }

  lemma SeenStep(first: Snapshot, ticks: seq<Tick>, n: nat)
    requires 0 < n <= |ticks|
    ensures Seen(first, ticks, n + 1) == Seen(first, ticks, n) + [ticks[n - 1].snapshot]
  {
  }

  lemma NextInOrder(start: Ledger, state: Ledger, first: Snapshot, ticks: seq<Tick>, verdicts: seq<Verdict>,
                    parse: Parser, inputLimit: int, outputLimit: int)
    requires InOrder(start, state, first, ticks, verdicts, parse, inputLimit, outputLimit)
    requires 0 < |verdicts| <= |ticks|
    ensures var snapshot := ticks[|verdicts| - 1].snapshot;
            var scan := AfterScan(state, snapshot.paths, snapshot.files, parse);
            InOrder(start, scan.ledger, first, ticks, verdicts + [Judge(scan, inputLimit, outputLimit)],
                    parse, inputLimit, outputLimit)
  {
    hide AfterScan, AfterChecks, Judge, Seen;
    var n := |verdicts|;
    SeenStep(first, ticks, n);
    ChecksStep(start, Seen(first, ticks, n), ticks[n - 1].snapshot, parse);
  }

  lemma ChecksStep(start: Ledger, before: seq<Snapshot>, snapshot: Snapshot, parse: Parser)
    ensures AfterChecks(start, before + [snapshot], parse)
         == AfterScan(AfterChecks(start, before, parse), snapshot.paths, snapshot.files, parse).ledger
  {
    assert (before + [snapshot])[..|before + [snapshot]| - 1] == before;
  }

  predicate AllPassed(verdicts: seq<Verdict>) {
    forall k :: 0 <= k < |verdicts| ==> verdicts[k] == Passed
  }

  /** The last check that was made came after a wait in which the operation was found done. */
  predicate FoundDone(ticks: seq<Tick>, checks: nat)
    requires checks <= |ticks| + 1
  {
    checks > 1 && ticks[checks - 2].done
  }

  /** How the run ended, from the ticks and the verdicts alone. */
  predicate Accounted(ticks: seq<Tick>, verdicts: seq<Verdict>, outcome: Outcome, operation: Operation) {
    && 1 <= |verdicts| <= |ticks| + 1
    // no check was made past a verdict, a cancellation or an operation found done
    && (forall k :: 0 <= k < |verdicts| - 1 ==> verdicts[k] == Passed && !ticks[k].runnerCancelled)
    && (forall k :: 0 <= k < |verdicts| - 2 ==> !ticks[k].done)
    && (outcome == Returned <==>
          AllPassed(verdicts) && FoundDone(ticks, |verdicts|) && !ticks[|verdicts| - 2].failed)
    && (outcome == OperationFailed <==>
          AllPassed(verdicts) && FoundDone(ticks, |verdicts|) && ticks[|verdicts| - 2].failed)
    && (outcome == RunnerCancelled <==>
          AllPassed(verdicts) && !FoundDone(ticks, |verdicts|) && |verdicts| <= |ticks| && ticks[|verdicts| - 1].runnerCancelled)
    && (outcome == StillPolling <==>
          AllPassed(verdicts) && !FoundDone(ticks, |verdicts|) && |verdicts| == |ticks| + 1)
    && (outcome.Stopped? <==> verdicts[|verdicts| - 1] != Passed)
    && (outcome.Stopped? ==> outcome.verdict == verdicts[|verdicts| - 1])
    // nothing is left running behind a run that ended
    && (operation == NotStarted <==> |verdicts| == 1 && outcome.Stopped?)
    && (operation == Running <==> outcome == StillPolling)
    && (operation.Finished? <==> FoundDone(ticks, |verdicts|))
    && (operation.Finished? ==> operation.failed == ticks[|verdicts| - 2].failed)
  }

  /** The loop after a check that passed. */
  predicate GoesOn(ticks: seq<Tick>, verdicts: seq<Verdict>, operation: Operation) {
    && 1 <= |verdicts| <= |ticks| + 1
    && AllPassed(verdicts)
    && (forall k :: 0 <= k < |verdicts| - 1 ==> !ticks[k].runnerCancelled)
    && (forall k :: 0 <= k < |verdicts| - 2 ==> !ticks[k].done)
    && operation == if FoundDone(ticks, |verdicts|) then Finished(ticks[|verdicts| - 2].failed) else Running
  }

  lemma FirstCheck(ticks: seq<Tick>, verdict: Verdict)
    ensures if verdict == Passed then GoesOn(ticks, [verdict], Running) else Accounted(ticks, [verdict], Stopped(verdict), NotStarted)
  {
    assert [verdict][0] == verdict;
  }

  lemma NextCheck(ticks: seq<Tick>, verdicts: seq<Verdict>, verdict: Verdict)
    requires GoesOn(ticks, verdicts, Running) && |verdicts| <= |ticks| && !ticks[|verdicts| - 1].runnerCancelled
    ensures var tick := ticks[|verdicts| - 1];
            if verdict == Passed
            then GoesOn(ticks, verdicts + [verdict], if tick.done then Finished(tick.failed) else Running)
            else Accounted(ticks, verdicts + [verdict], Stopped(verdict), if tick.done then Finished(tick.failed) else CancelledAndAwaited)
  {
    var longer := verdicts + [verdict];
    assert longer[|verdicts|] == verdict;
    assert forall k :: 0 <= k < |verdicts| ==> longer[k] == verdicts[k];
  }

  lemma NoCheckLeft(ticks: seq<Tick>, verdicts: seq<Verdict>)
    requires GoesOn(ticks, verdicts, Running)
    ensures |verdicts| == |ticks| + 1 ==> Accounted(ticks, verdicts, StillPolling, Running)
    ensures |verdicts| <= |ticks| && ticks[|verdicts| - 1].runnerCancelled ==>
              Accounted(ticks, verdicts, RunnerCancelled, CancelledAndAwaited)
  {
  }

  lemma DoneCheck(ticks: seq<Tick>, verdicts: seq<Verdict>, failed: bool)
    requires GoesOn(ticks, verdicts, Finished(failed))
    ensures Accounted(ticks, verdicts, if failed then OperationFailed else Returned, Finished(failed))
  {
  }

  /** The check after a wait. */
  method CheckAgain(budget: TranscriptBudget, ghost start: Ledger, ghost first: Snapshot, ghost ticks: seq<Tick>,
      ghost verdicts: seq<Verdict>, snapshot: Snapshot) returns (verdict: Verdict)
    requires InOrder(start, budget.State(), first, ticks, verdicts, budget.parse, budget.inputLimit, budget.outputLimit)
    requires 0 < |verdicts| <= |ticks| && snapshot == ticks[|verdicts| - 1].snapshot
    modifies budget
    ensures InOrder(start, budget.State(), first, ticks, verdicts + [verdict], budget.parse, budget.inputLimit, budget.outputLimit)
  {
    hide *;
    NextInOrder(start, budget.State(), first, ticks, verdicts, budget.parse, budget.inputLimit, budget.outputLimit);
    verdict := budget.Check(snapshot.paths, snapshot.files);
  }

  method Run(budget: TranscriptBudget, first: Snapshot, ticks: seq<Tick>)
    returns (outcome: Outcome, operation: Operation, verdicts: seq<Verdict>)
    modifies budget
    ensures InOrder(old(budget.State()), budget.State(), first, ticks, verdicts,
                    budget.parse, budget.inputLimit, budget.outputLimit)
    ensures Accounted(ticks, verdicts, outcome, operation)
  {
    hide *;
    ghost var start := budget.State();
    FirstInOrder(start, first, ticks, budget.parse, budget.inputLimit, budget.outputLimit);
    var verdict := budget.Check(first.paths, first.files);
    verdicts := [verdict];
    FirstCheck(ticks, verdict);
    if verdict != Passed {
      return Stopped(verdict), NotStarted, verdicts;
    }
    operation := Running;
    var i := 0;
    while operation == Running
      invariant 0 <= i <= |ticks| && |verdicts| == i + 1
      invariant operation == Running || operation.Finished?
      invariant GoesOn(ticks, verdicts, operation)
      invariant InOrder(start, budget.State(), first, ticks, verdicts, budget.parse, budget.inputLimit, budget.outputLimit)
      decreases |ticks| - i, operation == Running
    {
      NoCheckLeft(ticks, verdicts);
      if i == |ticks| {
        return StillPolling, operation, verdicts;
      }
      var tick := ticks[i];
      if tick.runnerCancelled {
        return RunnerCancelled, CancelledAndAwaited, verdicts;
      }
      verdict := CheckAgain(budget, start, first, ticks, verdicts, tick.snapshot);
      NextCheck(ticks, verdicts, verdict);
      verdicts := verdicts + [verdict];
      i := i + 1;
      if tick.done {
        operation := Finished(tick.failed);
      }
      if verdict != Passed {
        if operation == Running {
          operation := CancelledAndAwaited;
        }
        return Stopped(verdict), operation, verdicts;
      }
    }
    DoneCheck(ticks, verdicts, operation.failed);
    outcome := if operation.failed then OperationFailed else Returned;
  }
}
