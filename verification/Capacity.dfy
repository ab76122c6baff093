/** The attempts of one agent turn: `retry_agent_service_errors` inside `retry_claude_quota`. */
module Retries {

  /** How one attempt ends, by the exception class the retries tell apart. */
  datatype Outcome =
    | Success
    | TimedOut
    | NotAuthenticated
    | InfrastructureDown
    | LaunchFailed
    | SessionNotFound
    | GateRejected
    | ExecutionFailed
    | QuotaExceeded
    | BudgetExceeded
    | SteeringInterrupted
    | Cancelled

  /** An `AgentExecutionError` outside the five subclasses that are raised at once. */
  predicate Retryable(o: Outcome) {
    o.GateRejected? || o.ExecutionFailed?
  }

  const AGENT_RETRY_DELAYS: seq<nat> := [60, 300, 900, 1800, 3600]

  /** Where a call stands between and during its attempts. `attempt` counts the failures since the
      call began or its quota last ran out. */
  datatype Stage =
    | Waiting(attempt: nat)
    | Running(attempt: nat)
    | Sleeping(attempt: nat, seconds: nat)
    | QuotaWait
    | Settled(outcome: Outcome)

  /** What the end of an attempt leads to. */
  function After(attempt: nat, o: Outcome, delays: seq<nat>): Stage {
    if o.QuotaExceeded? then QuotaWait
    else if Retryable(o) && attempt < |delays| then Sleeping(attempt + 1, delays[attempt])
    else Settled(o)
  }

  /** The flat reading of the nested loops: where a call stands when its attempts end as `script`
      says, waits left aside, and how much of the script it used. */
  function Play(script: seq<Outcome>, attempt: nat, delays: seq<nat>): (r: (Stage, nat))
    ensures r.1 <= |script|
  {
    if script == [] then (Waiting(attempt), 0)
    else
      var s := After(attempt, script[0], delays);
      if s.Settled? then (s, 1)
      else
        var r := Play(script[1..], if s.Sleeping? then s.attempt else 0, delays);
        (r.0, r.1 + 1)
  }

  /** The attempts since the quota last ran out. */
  function Streak(log: seq<Outcome>): nat {
    if log == [] || log[|log| - 1].QuotaExceeded? then 0 else Streak(log[..|log| - 1]) + 1
  }

  /** Never more than the first attempt and one retry per delay between two quota rejections. */
  predicate StreaksBounded(log: seq<Outcome>, delays: seq<nat>) {
    forall n :: 0 <= n <= |log| ==> Streak(log[..n]) <= |delays| + 1
  }

  /** Only service failures and quota rejections are followed by another attempt. */
  predicate AllRetried(log: seq<Outcome>) {
    forall k :: 0 <= k < |log| ==> Retryable(log[k]) || log[k].QuotaExceeded?
  }

  /** What the attempts so far say about where the call stands. */
  predicate Accounted(stage: Stage, log: seq<Outcome>, delays: seq<nat>) {
    && StreaksBounded(log, delays)
    && match stage
       case Waiting(a) => AllRetried(log) && Streak(log) == a <= |delays|
       case Running(a) => AllRetried(log) && Streak(log) == a <= |delays|
       case Sleeping(a, seconds) => AllRetried(log) && 1 <= Streak(log) == a <= |delays| && seconds == delays[a - 1]
       case QuotaWait => AllRetried(log) && log != [] && log[|log| - 1].QuotaExceeded?
       case Settled(o) =>
         if o.Cancelled? && AllRetried(log) then Streak(log) <= |delays|  // cancelled between attempts
         else log != [] && log[|log| - 1] == o && AllRetried(log[..|log| - 1])
              && !o.QuotaExceeded? && (Retryable(o) ==> Streak(log) == |delays| + 1)
  }

  lemma StreakSnoc(log: seq<Outcome>, o: Outcome)
    ensures Streak(log + [o]) == if o.QuotaExceeded? then 0 else Streak(log) + 1
  {
    assert (log + [o])[..|log|] == log;
  }

  lemma BoundedSnoc(log: seq<Outcome>, o: Outcome, delays: seq<nat>)
    requires StreaksBounded(log, delays) && Streak(log) <= |delays|
    ensures StreaksBounded(log + [o], delays)
  {
    var longer := log + [o];
    StreakSnoc(log, o);
    forall n | 0 <= n <= |longer| ensures Streak(longer[..n]) <= |delays| + 1 {
      if n <= |log| {
        assert longer[..n] == log[..n];
      } else {
        assert longer[..n] == longer;
      }
    }
  }

  /** The end of an attempt keeps the account. */
  lemma AttemptAccounted(attempt: nat, log: seq<Outcome>, o: Outcome, delays: seq<nat>)
    requires Accounted(Running(attempt), log, delays)
    ensures Accounted(After(attempt, o, delays), log + [o], delays)
  {
    BoundedSnoc(log, o, delays);
    StreakSnoc(log, o);
    assert (log + [o])[..|log|] == log;
  }

  /** Where the nested loops leave a call: it consumed a prefix of the script whose account is the
      stage it is in, and it stops early only when it is settled. */
  lemma {:induction false} PlayAccounted(script: seq<Outcome>, log: seq<Outcome>, attempt: nat, delays: seq<nat>)
    requires Accounted(Waiting(attempt), log, delays)
    ensures var (stage, used) := Play(script, attempt, delays);
            && Accounted(stage, log + script[..used], delays)
            && (stage.Settled? || (stage.Waiting? && used == |script|))
    decreases |script|
  {
    if script == [] {
      assert log + script[..0] == log;
    } else {
      AttemptAccounted(attempt, log, script[0], delays);
      var s := After(attempt, script[0], delays);
      var used := Play(script, attempt, delays).1;
      if s.Settled? {
        assert script[..1] == [script[0]];
      } else {
        StreakSnoc(log, script[0]);
        PlayAccounted(script[1..], log + [script[0]], if s.Sleeping? then s.attempt else 0, delays);
        assert log + [script[0]] + script[1..][..used - 1] == log + script[..used];
      }
    }
  }

  /** The stage once the wait it stands in is over. */
  function Resumed(stage: Stage): Stage {
    match stage
    case Running(a) => Waiting(a)
    case Sleeping(a, _) => Waiting(a)
    case QuotaWait => Waiting(0)
    case _ => stage
  }

  /** One more attempt on a script that left the call waiting. */
  lemma {:induction false} PlaySnoc(script: seq<Outcome>, o: Outcome, attempt: nat, delays: seq<nat>)
    requires var r := Play(script, attempt, delays); r.0.Waiting? && r.1 == |script|
    ensures Play(script + [o], attempt, delays)
         == (Resumed(After(Play(script, attempt, delays).0.attempt, o, delays)), |script| + 1)
    decreases |script|
  {
    if script == [] {
      assert script + [o] == [o];
    } else {
      var s := After(attempt, script[0], delays);
      assert !s.Settled?;
      PlaySnoc(script[1..], o, if s.Sleeping? then s.attempt else 0, delays);
      assert (script + [o])[1..] == script[1..] + [o];
    }
  }

  /** `retry_agent_service_errors` from one place of the script on. `left` says that the script
      ended while an attempt was still out. */
  method RetryServiceErrors(script: seq<Outcome>, start: nat, delays: seq<nat>)
    returns (outcome: Outcome, used: nat, left: bool, slept: seq<nat>)
    requires start <= |script|
    ensures start <= used <= |script|
    ensures forall k :: start <= k < used - 1 ==> Retryable(script[k])
    ensures !left ==> used > start && outcome == script[used - 1] && used - start <= |delays| + 1
    ensures !left && Retryable(outcome) ==> used - start == |delays| + 1
    ensures left ==> used == |script| && used - start <= |delays| && forall k :: start <= k < used ==> Retryable(script[k])
    ensures slept == delays[..if left then used - start else used - start - 1]
  {
    outcome, used, left, slept := Success, start, false, [];
    for k := 0 to |delays|
      invariant used == start + k <= |script|
      invariant forall j :: start <= j < used ==> Retryable(script[j])
      invariant slept == delays[..k] && !left
    {
      if used == |script| {
        left := true;
        return;
      }
      outcome := script[used];
      used := used + 1;
      if !Retryable(outcome) {
        return;
      }
      slept := slept + [delays[k]];
    }
    if used == |script| {
      left := true;
      return;
    }
    outcome := script[used];
    used := used + 1;
  }

  /** One round of the inner loop is a stretch of the flat reading. */
  lemma {:induction false} RoundIsPlay(script: seq<Outcome>, attempt: nat, n: nat, delays: seq<nat>)
    requires attempt + n <= |delays| && n <= |script|
    requires forall k :: 0 <= k < n ==> Retryable(script[k])
    ensures Play(script, attempt, delays).0 == Play(script[n..], attempt + n, delays).0
    ensures Play(script, attempt, delays).1 == Play(script[n..], attempt + n, delays).1 + n
    decreases n
  {
    if n == 0 {
      assert script[0..] == script;
    } else {
      RoundIsPlay(script[1..], attempt + 1, n - 1, delays);
      assert script[1..][n - 1..] == script[n..];
    }
  }

  /** One round as `RetryServiceErrors` leaves it, in the flat reading. */
  lemma RoundReads(script: seq<Outcome>, start: nat, next: nat, left: bool, delays: seq<nat>)
    requires start <= next <= |script| && next - start <= |delays| + 1
    requires forall k :: start <= k < next - 1 ==> Retryable(script[k])
    requires left ==> next == |script| && next - start <= |delays|
    requires left ==> forall k :: start <= k < next ==> Retryable(script[k])
    requires !left ==> next > start && (Retryable(script[next - 1]) ==> next - start == |delays| + 1)
    ensures var r := Play(script[start..], 0, delays);
            if left then r == (Waiting(next - start), |script| - start)
            else if script[next - 1].QuotaExceeded? then
              var rest := Play(script[next..], 0, delays); r == (rest.0, rest.1 + (next - start))
            else r == (Settled(script[next - 1]), next - start)
  {
    hide Play;
    var retried := if left then next - start else next - start - 1;
    RoundIsPlay(script[start..], 0, retried, delays);
    assert script[start..][retried..] == script[start + retried..];
    PlayHead(script, start + retried, retried, delays);
  }

  lemma PlayHead(script: seq<Outcome>, k: nat, attempt: nat, delays: seq<nat>)
    requires k <= |script| && (k < |script| && Retryable(script[k]) ==> attempt == |delays|)
    ensures var r := Play(script[k..], attempt, delays);
            if k == |script| then r == (Waiting(attempt), 0)
            else if script[k].QuotaExceeded? then
              var rest := Play(script[k + 1..], 0, delays); r == (rest.0, rest.1 + 1)
            else r == (Settled(script[k]), 1)
  {
    if k < |script| {
      assert script[k..][0] == script[k] && script[k..][1..] == script[k + 1..];
    }
  }

  /** `retry_claude_quota` around it: the two nested loops together are the flat reading. */
  method RetryClaudeQuota(script: seq<Outcome>, delays: seq<nat>) returns (stage: Stage, used: nat)
    ensures (stage, used) == Play(script, 0, delays)
    ensures Accounted(stage, script[..used], delays)
  {
    hide Accounted, Play, Retryable;
    FreshAccounted(script, delays);
    used := 0;
    assert script[0..] == script;
    while true
      invariant used <= |script|
      invariant Play(script, 0, delays).0 == Play(script[used..], 0, delays).0
      invariant Play(script, 0, delays).1 == Play(script[used..], 0, delays).1 + used
      decreases |script| - used
    {
      var outcome, next, left, _ := RetryServiceErrors(script, used, delays);
      RoundReads(script, used, next, left, delays);
      if left {
        return Waiting(next - used), next;
      }
      if !outcome.QuotaExceeded? {
        return Settled(outcome), next;
      }
      used := next;
    }
  }

  lemma FreshAccounted(script: seq<Outcome>, delays: seq<nat>)
    ensures var (stage, used) := Play(script, 0, delays); Accounted(stage, script[..used], delays)
  {
    PlayAccounted(script, [], 0, delays);
    var used := Play(script, 0, delays).1;
    assert [] + script[..used] == script[..used];
  }
}

/** The shared semaphore of `AgentOrchestrator`: many calls, interleaved at every await. */
module Capacity {
  import opened Retries

  /** `log` is how the attempts of the call ended so far. */
  datatype Call = Call(stage: Stage, log: seq<Outcome>)

  /** `free` is the semaphore's value. `bypassing` counts provider calls made without it: the Codex
      timeout recoveries and the communication gate. */
  datatype World = World(free: nat, calls: seq<Call>, bypassing: nat)

  datatype Event =
    | Begin
    | Acquire(call: nat)
    | End(call: nat, outcome: Outcome)  // the attempt is over, cancellation included
    | Wake(call: nat)                   // the retry delay is over
    | QuotaReset(call: nat)
    | Cancel(call: nat)                 // while no attempt runs
    | BypassBegin
    | BypassEnd

  predicate Enabled(w: World, e: Event) {
    match e
    case Begin => true
    case BypassBegin => true
    case BypassEnd => w.bypassing > 0
    case Acquire(i) => i < |w.calls| && w.calls[i].stage.Waiting? && w.free > 0
    case End(i, _) => i < |w.calls| && w.calls[i].stage.Running?
    case Wake(i) => i < |w.calls| && w.calls[i].stage.Sleeping?
    case QuotaReset(i) => i < |w.calls| && w.calls[i].stage.QuotaWait?
    case Cancel(i) => i < |w.calls| && !w.calls[i].stage.Running? && !w.calls[i].stage.Settled?
  }

  function Moved(w: World, i: nat, stage: Stage): World
    requires i < |w.calls|
  {
    w.(calls := w.calls[i := w.calls[i].(stage := stage)])
  }

  function Step(w: World, e: Event, delays: seq<nat>): World
    requires Enabled(w, e)
  {
    match e
    case Begin => w.(calls := w.calls + [Call(Waiting(0), [])])
    case Acquire(i) => Moved(w, i, Running(w.calls[i].stage.attempt)).(free := w.free - 1)
    case End(i, o) =>
      var c := w.calls[i];
      w.(calls := w.calls[i := Call(After(c.stage.attempt, o, delays), c.log + [o])], free := w.free + 1)
    case Wake(i) => Moved(w, i, Waiting(w.calls[i].stage.attempt))
    case QuotaReset(i) => Moved(w, i, Waiting(0))
    case Cancel(i) => Moved(w, i, Settled(Cancelled))
    case BypassBegin => w.(bypassing := w.bypassing + 1)
    case BypassEnd => w.(bypassing := w.bypassing - 1)
  }

  predicate CanRun(w: World, events: seq<Event>, delays: seq<nat>)
    decreases |events|
  {
    events != [] ==> Enabled(w, events[0]) && CanRun(Step(w, events[0], delays), events[1..], delays)
  }

  function Run(w: World, events: seq<Event>, delays: seq<nat>): World
    requires CanRun(w, events, delays)
    decreases |events|
  {
    if events == [] then w else Run(Step(w, events[0], delays), events[1..], delays)
  }

  /** The calls whose operation is running. */
  function Holders(calls: seq<Call>): nat {
    if calls == [] then 0 else Holders(calls[1..]) + (if calls[0].stage.Running? then 1 else 0)
  }

  /** Every permit is free or with a running attempt, and every call's attempts account for where
      it stands. */
  predicate Conserved(w: World, capacity: nat, delays: seq<nat>) {
    && w.free + Holders(w.calls) == capacity
    && forall i :: 0 <= i < |w.calls| ==> Accounted(w.calls[i].stage, w.calls[i].log, delays)
  }

  lemma {:induction false} HoldersUpdate(calls: seq<Call>, i: nat, c: Call)
    requires i < |calls|
    ensures Holders(calls[i := c]) + (if calls[i].stage.Running? then 1 else 0)
         == Holders(calls) + (if c.stage.Running? then 1 else 0)
  {
    if i == 0 {
      assert calls[0 := c][1..] == calls[1..];
    } else {
      HoldersUpdate(calls[1..], i - 1, c);
      assert calls[i := c][1..] == calls[1..][i - 1 := c];
    }
  }

  lemma {:induction false} HoldersSnoc(calls: seq<Call>, c: Call)
    ensures Holders(calls + [c]) == Holders(calls) + (if c.stage.Running? then 1 else 0)
  {
    if calls == [] {
      assert ([] + [c])[1..] == [];
    } else {
      HoldersSnoc(calls[1..], c);
      assert (calls + [c])[1..] == calls[1..] + [c];
    }
  }

  lemma CallAccounted(w: World, e: Event, delays: seq<nat>, i: nat)
    requires Enabled(w, e) && i < |w.calls| && Accounted(w.calls[i].stage, w.calls[i].log, delays)
    ensures var c := Step(w, e, delays).calls[i]; Accounted(c.stage, c.log, delays)
  {
    hide StreaksBounded, AllRetried, After;
    match e
    case End(j, o) =>
      if j == i {
        hide Accounted;
        AttemptAccounted(w.calls[i].stage.attempt, w.calls[i].log, o, delays);
      }
    case _ =>
  }

  lemma StepConserves(w: World, e: Event, capacity: nat, delays: seq<nat>)
    requires Conserved(w, capacity, delays) && Enabled(w, e)
    ensures Conserved(Step(w, e, delays), capacity, delays)
  {
    var u := Step(w, e, delays);
    assert forall i :: 0 <= i < |w.calls| ==> Accounted(u.calls[i].stage, u.calls[i].log, delays) by {
      forall i | 0 <= i < |w.calls| ensures Accounted(u.calls[i].stage, u.calls[i].log, delays) {
        CallAccounted(w, e, delays, i);
      }
    }
    match e
    case Begin =>
      HoldersSnoc(w.calls, Call(Waiting(0), []));
    case Acquire(i) => HoldersUpdate(w.calls, i, u.calls[i]);
    case End(i, _) => HoldersUpdate(w.calls, i, u.calls[i]);
    case Wake(i) => HoldersUpdate(w.calls, i, u.calls[i]);
    case QuotaReset(i) => HoldersUpdate(w.calls, i, u.calls[i]);
    case Cancel(i) => HoldersUpdate(w.calls, i, u.calls[i]);
    case BypassBegin =>
    case BypassEnd =>
  }

  /** Over every interleaving: permits are conserved, whatever ends an attempt. */
  lemma {:induction false} EveryRunConserves(w: World, events: seq<Event>, capacity: nat, delays: seq<nat>)
    requires Conserved(w, capacity, delays) && CanRun(w, events, delays)
    ensures Conserved(Run(w, events, delays), capacity, delays)
    decreases |events|
  {
    if events != [] {
      StepConserves(w, events[0], capacity, delays);
      hide Conserved, Step, Enabled;
      EveryRunConserves(Step(w, events[0], delays), events[1..], capacity, delays);
    }
  }

  /** The call stands where the nested loops stand after the same attempts, unless it was cancelled. */
  predicate Follows(c: Call, delays: seq<nat>) {
    c.stage == Settled(Cancelled) || Play(c.log, 0, delays) == (Resumed(c.stage), |c.log|)
  }

  predicate AllFollow(w: World, delays: seq<nat>) {
    forall i :: 0 <= i < |w.calls| ==> Follows(w.calls[i], delays)
  }

  lemma CallFollows(w: World, e: Event, delays: seq<nat>, i: nat)
    requires Enabled(w, e) && i < |w.calls| && Follows(w.calls[i], delays)
    ensures Follows(Step(w, e, delays).calls[i], delays)
  {
    if e.End? && e.call == i {
      PlaySnoc(w.calls[i].log, e.outcome, 0, delays);
    }
  }

  /** In every interleaving each call goes exactly the way of its own nested loops. */
  lemma {:induction false} EveryCallFollows(w: World, events: seq<Event>, delays: seq<nat>)
    requires CanRun(w, events, delays)
    requires AllFollow(w, delays)
    ensures AllFollow(Run(w, events, delays), delays)
    decreases |events|
  {
    if events != [] {
      var v := Step(w, events[0], delays);
      assert AllFollow(v, delays) by {
        forall i | 0 <= i < |v.calls| ensures Follows(v.calls[i], delays) {
          if i < |w.calls| {
            CallFollows(w, events[0], delays, i);
          }
        }
      }
      hide AllFollow, Step, Enabled;
      EveryCallFollows(v, events[1..], delays);
    }
  }

  /** The service's own runs: at most `capacity` operations run through the semaphore, and all permits
      are back whenever none does. What the calls around the semaphore need is free permits. */
  lemma ServiceCapacity(events: seq<Event>, capacity: nat)
    requires CanRun(World(capacity, [], 0), events, AGENT_RETRY_DELAYS)
    ensures var u := Run(World(capacity, [], 0), events, AGENT_RETRY_DELAYS);
            && Holders(u.calls) <= capacity
            && (Holders(u.calls) == 0 <==> u.free == capacity)
            && (Holders(u.calls) + u.bypassing <= capacity <==> u.bypassing <= u.free)
  {
    EveryRunConserves(World(capacity, [], 0), events, capacity, AGENT_RETRY_DELAYS);
  }

  // ---------------------------------------------------------------- calls around the semaphore

  /** All provider calls under way, with the semaphore or without. */
  function Total(w: World): nat {
    Holders(w.calls) + w.bypassing
  }

  /** A step changes the number of provider calls under way exactly by beginning or ending one. */
  lemma StepTotal(w: World, e: Event, delays: seq<nat>)
    requires Enabled(w, e)
    ensures Total(Step(w, e, delays)) == Total(w) + (match e
                                                    case Acquire(_) => 1
                                                    case BypassBegin => 1
                                                    case End(_, _) => -1
                                                    case BypassEnd => -1
                                                    case _ => 0)
  {
    var u := Step(w, e, delays);
    match e
    case Begin => HoldersSnoc(w.calls, Call(Waiting(0), []));
    case BypassBegin =>
    case BypassEnd =>
    case End(i, o) => AfterStops(w.calls[i].stage.attempt, o, delays); HoldersUpdate(w.calls, i, u.calls[i]);
    case Acquire(i) => HoldersUpdate(w.calls, i, u.calls[i]);
    case Wake(i) => HoldersUpdate(w.calls, i, u.calls[i]);
    case QuotaReset(i) => HoldersUpdate(w.calls, i, u.calls[i]);
    case Cancel(i) => HoldersUpdate(w.calls, i, u.calls[i]);
  }

  /** From a state within the capacity a step leaves it exactly when one more call begins, through
      the semaphore or around it, while the calls under way already fill the capacity. */
  lemma LeavesCapacityIff(w: World, e: Event, capacity: nat, delays: seq<nat>)
    requires Conserved(w, capacity, delays) && Enabled(w, e) && Total(w) <= capacity
    ensures Total(Step(w, e, delays)) > capacity <==> (e.Acquire? || e.BypassBegin?) && Total(w) == capacity
  {
    StepTotal(w, e, delays);
    hide Total, Step;
  }

  lemma AfterStops(attempt: nat, o: Outcome, delays: seq<nat>)
    ensures !After(attempt, o, delays).Running?
  {
  }

  /** At no point of the run are more than `k` calls open around the semaphore. */
  predicate BypassesAtMost(w: World, events: seq<Event>, delays: seq<nat>, k: nat)
    requires CanRun(w, events, delays)
    decreases |events|
  {
    w.bypassing <= k && (events != [] ==> BypassesAtMost(Step(w, events[0], delays), events[1..], delays, k))
  }

  /** At no point of the run are more than `n` provider calls under way. */
  predicate TotalAtMost(w: World, events: seq<Event>, delays: seq<nat>, n: nat)
    requires CanRun(w, events, delays)
    decreases |events|
  {
    Total(w) <= n && (events != [] ==> TotalAtMost(Step(w, events[0], delays), events[1..], delays, n))
  }

  /** With at most `k` calls open around the semaphore at a time, never more than `capacity + k`
      provider calls are under way. */
  lemma {:induction false} BypassBound(w: World, events: seq<Event>, capacity: nat, delays: seq<nat>, k: nat)
    requires Conserved(w, capacity, delays) && CanRun(w, events, delays) && BypassesAtMost(w, events, delays, k)
    ensures TotalAtMost(w, events, delays, capacity + k)
    decreases |events|
  {
    if events != [] {
      StepConserves(w, events[0], capacity, delays);
      hide Step, Enabled;
      BypassBound(Step(w, events[0], delays), events[1..], capacity, delays, k);
    }
  }

  lemma RunCons(w: World, e: Event, rest: seq<Event>, delays: seq<nat>, k: nat)
    requires Enabled(w, e) && CanRun(Step(w, e, delays), rest, delays)
    ensures CanRun(w, [e] + rest, delays) && Run(w, [e] + rest, delays) == Run(Step(w, e, delays), rest, delays)
    ensures w.bypassing <= k && BypassesAtMost(Step(w, e, delays), rest, delays, k) ==> BypassesAtMost(w, [e] + rest, delays, k)
  {
    assert ([e] + rest)[1..] == rest;
  }

  /** One new call takes a free permit. */
  lemma OneMore(w: World, delays: seq<nat>)
    requires w.free > 0
    ensures var v := Step(w, Begin, delays);
            && Enabled(v, Acquire(|w.calls|))
            && var u := Step(v, Acquire(|w.calls|), delays);
               Holders(u.calls) == Holders(w.calls) + 1 && u.free == w.free - 1 && v.bypassing == u.bypassing == w.bypassing
  {
    var v := Step(w, Begin, delays);
    HoldersSnoc(w.calls, Call(Waiting(0), []));
    HoldersUpdate(v.calls, |w.calls|, v.calls[|w.calls|].(stage := Running(0)));
  }

  lemma {:induction false} FillUp(w: World, n: nat, k: nat, delays: seq<nat>) returns (events: seq<Event>)
    requires n <= w.free
    ensures CanRun(w, events, delays) && Total(Run(w, events, delays)) == Total(w) + n + k
    ensures BypassesAtMost(w, events, delays, w.bypassing + k)
    decreases n + k
  {
    if n > 0 {
      OneMore(w, delays);
      var v := Step(w, Begin, delays);
      var u := Step(v, Acquire(|w.calls|), delays);
      events := FillUp(u, n - 1, k, delays);
      RunCons(v, Acquire(|w.calls|), events, delays, w.bypassing + k);
      events := [Acquire(|w.calls|)] + events;
      RunCons(w, Begin, events, delays, w.bypassing + k);
      events := [Begin] + events;
    } else if k > 0 {
      events := FillUp(Step(w, BypassBegin, delays), 0, k - 1, delays);
      RunCons(w, BypassBegin, events, delays, w.bypassing + k);
      events := [BypassBegin] + events;
    } else {
      events := [];
    }
  }

  /** The bound is reached from the service's start: with one call around the semaphore, or `k` of
      them, exactly that many provider calls more than the capacity run at once. */
  lemma ServiceExceedsCapacity(capacity: nat, k: nat) returns (events: seq<Event>)
    ensures CanRun(World(capacity, [], 0), events, AGENT_RETRY_DELAYS)
    ensures BypassesAtMost(World(capacity, [], 0), events, AGENT_RETRY_DELAYS, k)
    ensures Total(Run(World(capacity, [], 0), events, AGENT_RETRY_DELAYS)) == capacity + k
  {
    events := FillUp(World(capacity, [], 0), capacity, k, AGENT_RETRY_DELAYS);
  }

  /** A run of the service with at most `k` bypasses open at a time in which more provider calls than
      the capacity are under way at some point. */
  predicate Exceeds(events: seq<Event>, capacity: nat, k: nat) {
    var start := World(capacity, [], 0);
    && CanRun(start, events, AGENT_RETRY_DELAYS)
    && BypassesAtMost(start, events, AGENT_RETRY_DELAYS, k)
    && !TotalAtMost(start, events, AGENT_RETRY_DELAYS, capacity)
  }

  /** The capacity bounds all provider calls exactly when none goes around the semaphore. */
  lemma CapacityExceededIff(capacity: nat, k: nat)
    ensures (exists events :: Exceeds(events, capacity, k)) <==> k > 0
  {
    var start := World(capacity, [], 0);
    if k == 0 {
      forall events ensures !Exceeds(events, capacity, k) {
        if CanRun(start, events, AGENT_RETRY_DELAYS) && BypassesAtMost(start, events, AGENT_RETRY_DELAYS, 0) {
          BypassBound(start, events, capacity, AGENT_RETRY_DELAYS, 0);
        }
      }
    } else {
      var events := ServiceExceedsCapacity(capacity, k);
      if TotalAtMost(start, events, AGENT_RETRY_DELAYS, capacity) {
        TotalAtEnd(start, events, AGENT_RETRY_DELAYS, capacity);
      }
      assert Exceeds(events, capacity, k);
    }
  }

  lemma {:induction false} TotalAtEnd(w: World, events: seq<Event>, delays: seq<nat>, n: nat)
    requires CanRun(w, events, delays) && TotalAtMost(w, events, delays, n)
    ensures Total(Run(w, events, delays)) <= n
    decreases |events|
  {
    if events != [] {
      TotalAtEnd(Step(w, events[0], delays), events[1..], delays, n);
    }
  }

  /** The call is somewhere between two attempts or in the next one. */
  predicate Under(stage: Stage) {
    stage.Waiting? || stage.Running? || stage.Sleeping? || stage.QuotaWait?
  }

  /** One call in any such run, by the exception classes. At most six attempts between two quota rejections.
      Only a rejected gate, a failed execution and a quota rejection are followed by another attempt. What
      else ends an attempt ends the call; a failure of these two kinds does so exactly as the sixth in a row,
      and before that it is followed by the wait of its turn. A quota rejection never ends it. */
  lemma ServiceAttempts(events: seq<Event>, capacity: nat, i: nat)
    requires CanRun(World(capacity, [], 0), events, AGENT_RETRY_DELAYS)
    requires i < |Run(World(capacity, [], 0), events, AGENT_RETRY_DELAYS).calls|
    ensures var c := Run(World(capacity, [], 0), events, AGENT_RETRY_DELAYS).calls[i];
            && (forall n :: 0 <= n <= |c.log| ==> Streak(c.log[..n]) <= 6)
            && (forall k :: 0 <= k < |c.log| - 1 ==>
                  c.log[k] == GateRejected || c.log[k] == ExecutionFailed || c.log[k] == QuotaExceeded)
            && (c.log == [] ==> Under(c.stage) || c.stage == Settled(Cancelled))
            && (c.log != [] ==>
                  var last := c.log[|c.log| - 1];
                  match last
                  case GateRejected => EndsSixth(c, last)
                  case ExecutionFailed => EndsSixth(c, last)
                  case QuotaExceeded => Under(c.stage) || c.stage == Settled(Cancelled)
                  case _ => c.stage == Settled(last))
            && (c.stage.Sleeping? ==> 1 <= c.stage.attempt <= 5 && c.stage.attempt == Streak(c.log)
                                      && c.stage.seconds == [60, 300, 900, 1800, 3600][c.stage.attempt - 1])
  {
    EveryRunConserves(World(capacity, [], 0), events, capacity, AGENT_RETRY_DELAYS);
    var c := Run(World(capacity, [], 0), events, AGENT_RETRY_DELAYS).calls[i];
    assert Accounted(c.stage, c.log, AGENT_RETRY_DELAYS);
    hide Run, Conserved, CanRun, Holders;
    assert |AGENT_RETRY_DELAYS| == 5;
    CallReads(c);
  }

  /** A service failure as the last outcome: the call is settled with it as the sixth in a row, and goes on
      before that unless it is cancelled. */
  predicate EndsSixth(c: Call, last: Outcome) {
    if Streak(c.log) == 6 then c.stage == Settled(last) else Under(c.stage) || c.stage == Settled(Cancelled)
  }

  lemma CallReads(c: Call)
    requires Accounted(c.stage, c.log, AGENT_RETRY_DELAYS)
    ensures forall n :: 0 <= n <= |c.log| ==> Streak(c.log[..n]) <= 6
    ensures forall k :: 0 <= k < |c.log| - 1 ==>
              c.log[k] == GateRejected || c.log[k] == ExecutionFailed || c.log[k] == QuotaExceeded
    ensures c.log == [] ==> Under(c.stage) || c.stage == Settled(Cancelled)
    ensures c.log != [] ==>
              var last := c.log[|c.log| - 1];
              match last
              case GateRejected => EndsSixth(c, last)
              case ExecutionFailed => EndsSixth(c, last)
              case QuotaExceeded => Under(c.stage) || c.stage == Settled(Cancelled)
              case _ => c.stage == Settled(last)
    ensures c.stage.Sleeping? ==> 1 <= c.stage.attempt <= 5 && c.stage.attempt == Streak(c.log)
                                  && c.stage.seconds == [60, 300, 900, 1800, 3600][c.stage.attempt - 1]
  {
    forall k | 0 <= k < |c.log| - 1
      ensures c.log[k] == GateRejected || c.log[k] == ExecutionFailed || c.log[k] == QuotaExceeded
    {
      assert c.log[..|c.log| - 1][k] == c.log[k];
    }
    hide Streak;
  }
}
