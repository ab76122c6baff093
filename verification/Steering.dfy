/** One Claude turn under concurrent steering: `ActiveAgentRun` and the launch loop of `_process`,
    as interleaved steps. A step is a stretch of code without an await. */
module Steering {
  import opened Wrappers

  type ProcessId = nat
  type CallId = nat

  /** Guidance as it was passed to one `steer` call. */
  datatype Guidance = Guidance(call: CallId, text: string)

  // ---------------------------------------------------------------- ActiveAgentRun

  /** The fields of the control surface that Claude turns use. */
  datatype Control = Control(steerable: bool, process: Option<ProcessId>, steering: seq<Guidance>)

  /** The part of `steer` under its lock up to the first await: the answer is known and the
      process to terminate, if any. */
  function Steered(control: Control, guidance: Guidance): (r: (Control, bool, Option<ProcessId>)) {
    if !control.steerable then (control, false, None)
    else (control.(steering := control.steering + [guidance]), true, control.process)
  }

  /** `take_claude_steering` swaps the buffer for an empty one. */
  function Taken(control: Control): (r: (Control, seq<Guidance>)) {
    (control.(steering := []), control.steering)
  }

  class ActiveAgentRun {
    const steerable: bool
    var process: Option<ProcessId>
    var steering: seq<Guidance>

    constructor (steerable: bool)
      ensures State() == Control(steerable, None, [])
    {
      this.steerable := steerable;
      process := None;
      steering := [];
    }

    ghost function State(): Control
      reads this
    {
      Control(steerable, process, steering)
    }

    method Steer(guidance: Guidance) returns (accepted: bool, terminate: Option<ProcessId>)
      modifies this`steering
      ensures (State(), accepted, terminate) == Steered(old(State()), guidance)
      // yes exactly from a steerable control; then the guidance is buffered and what runs is to be terminated
      ensures accepted <==> steerable
      ensures steering == if accepted then old(steering) + [guidance] else old(steering)
      ensures terminate == if accepted then process else None
    {
      if !steerable {
        return false, None;
      }
      steering := steering + [guidance];
      return true, process;
    }

    method TakeClaudeSteering() returns (messages: seq<Guidance>)
      modifies this`steering
      ensures (State(), messages) == Taken(old(State()))
    {
      messages, steering := steering, [];
    }

    method HasClaudeSteering() returns (has: bool)
      ensures has <==> State().steering != []
    {
      has := |steering| > 0;
    }
  }

  // ---------------------------------------------------------------- the turn

  /** A `steer` call: waiting for the control's lock, holding it until its process has gone, or
      answered to the caller of `submit`. */
  datatype Call = Waiting(text: string) | Terminating(process: ProcessId) | Answered(accepted: bool)

  /** Which launches the turn is in: the steering loop, the bounded recoveries behind it, or the
      partial report after a timeout. */
  datatype Stage = Loop | Recovery | TimeoutRecovery

  /** `Ready`: about to launch, perhaps waiting for capacity or between retries.
      `Interrupted`: `AgentSteeringInterrupt` is on its way to the loop.
      `Returned`: a result is on its way to the loop. */
  datatype Phase = Ready | Running | Interrupted | Returned | Done | Failed

  datatype Turn = Turn(
    control: Control,
    calls: map<CallId, Call>,
    nextCall: CallId,
    holder: Option<CallId>,       // who holds the control's lock
    registered: bool,             // the control is still in `_active_runs`
    stage: Stage,
    phase: Phase,
    launched: nat,                // process ids below this have been started
    accepted: seq<Guidance>,      // history: appended by `steer`, in order
    prompts: seq<seq<Guidance>>,  // history: the guidance of each resume prompt
    heard: Option<nat>            // history: how much was accepted when the loop broke
  )

  datatype Exit =
    | Completed     // a result, unless guidance arrived meanwhile
    | ServiceError  // retried by the loops around the launch, unless guidance arrived
    | TimedOut      // raised before the guidance is looked at
    | Fatal         // budget, authentication, exhausted retries, cancellation

  /** What a recovery brought: a result that asks for another one, a result that stands, or none that does. */
  datatype Verdict = Again | Stands | Hopeless

  datatype Event =
    | Arrive(text: string)                        // `submit` found the control and calls `steer`
    | Acquire(call: CallId)                       // its lock is free
    | ProcessGone(call: CallId)                   // `_terminate_process` returns, before or after the launch notices
    | Launch
    | ProcessExit(exit: Exit, automated: bool)
    | Take(needsRecovery: bool)                   // the loop looks at the buffer
    | AfterRecovery(verdict: Verdict)             // a recovery launch came back

  predicate Alive(t: Turn) {
    t.phase != Done && t.phase != Failed
  }

  predicate Enabled(t: Turn, e: Event) {
    match e
    case Arrive(_) => t.registered
    case Acquire(call) => call in t.calls && t.calls[call].Waiting? && t.holder == None
    case ProcessGone(call) => call in t.calls && t.calls[call].Terminating?
    case Launch => t.phase == Ready
    case ProcessExit(_, _) => t.phase == Running
    case Take(_) => t.stage == Loop && (t.phase == Interrupted || t.phase == Returned)
    case AfterRecovery(verdict) =>
      t.phase == Returned && (t.stage == Recovery || (t.stage == TimeoutRecovery && verdict == Stands))
  }

  /** Leaving the turn takes the control out of `_active_runs` without an await in between. */
  function Ended(t: Turn, phase: Phase): Turn {
    t.(phase := phase, registered := false)
  }

  function Exited(t: Turn, exit: Exit, automated: bool): Turn {
    var u := t.(control := t.control.(process := None));
    match exit
    case Fatal => Ended(u, Failed)
    case TimedOut =>
      if t.stage == TimeoutRecovery then Ended(u, Done)
      else if automated then u.(stage := TimeoutRecovery, phase := Ready)
      else Ended(u, Failed)
    case _ =>
      if t.control.steering != [] then
        // only the loop catches the interrupt
        if t.stage == Loop then u.(phase := Interrupted) else Ended(u, Failed)
      else if exit == Completed then u.(phase := Returned)
      else u.(phase := Ready)
  }

  function Looked(t: Turn, needsRecovery: bool): Turn {
    var (control, additions) := Taken(t.control);
    var u := t.(control := control);
    if additions != [] then u.(prompts := t.prompts + [additions], phase := Ready)
    else if t.phase == Interrupted then Ended(u, Failed)  // the loop would raise the interrupt again
    else
      var v := u.(heard := Some(|t.accepted|));
      if needsRecovery then v.(stage := Recovery, phase := Ready) else Ended(v, Done)
  }

  function Step(t: Turn, e: Event): Turn
    requires Enabled(t, e)
  {
    match e
    case Arrive(text) => t.(calls := t.calls[t.nextCall := Waiting(text)], nextCall := t.nextCall + 1)
    case Acquire(call) =>
      var guidance := Guidance(call, t.calls[call].text);
      var (control, accepted, terminate) := Steered(t.control, guidance);
      var u := t.(control := control, accepted := if accepted then t.accepted + [guidance] else t.accepted);
      if terminate.Some? then u.(calls := t.calls[call := Terminating(terminate.value)], holder := Some(call))
      else u.(calls := t.calls[call := Answered(accepted)])
    case ProcessGone(call) => t.(calls := t.calls[call := Answered(true)], holder := None)
    case Launch => t.(control := t.control.(process := Some(t.launched)), launched := t.launched + 1, phase := Running)
    case ProcessExit(exit, automated) => Exited(t, exit, automated)
    case Take(needsRecovery) => Looked(t, needsRecovery)
    case AfterRecovery(verdict) =>
      (match verdict
       case Again => t.(phase := Ready)
       case Stands => Ended(t, Done)
       case Hopeless => Ended(t, Failed))
  }

  function Start(steerable: bool): Turn {
    Turn(Control(steerable, None, []), map[], 0, None, true, Loop, Ready, 0, [], [], None)
  }

  /** The state after a sequence of steps, each enabled when it is taken. */
  predicate CanRun(t: Turn, events: seq<Event>)
    decreases |events|
  {
    events != [] ==> Enabled(t, events[0]) && CanRun(Step(t, events[0]), events[1..])
  }

  function Run(t: Turn, events: seq<Event>): Turn
    requires CanRun(t, events)
    decreases |events|
  {
    if events == [] then t else Run(Step(t, events[0]), events[1..])
  }

  // ---------------------------------------------------------------- guidance in every run

  function Consumed(prompts: seq<seq<Guidance>>): seq<Guidance> {
    if prompts == [] then [] else Consumed(prompts[..|prompts| - 1]) + prompts[|prompts| - 1]
  }

  /** Nothing accepted is lost, repeated or reordered: the guidance of the resume prompts followed
      by the buffer is the accepted guidance. */
  predicate Conserved(t: Turn) {
    t.accepted == Consumed(t.prompts) + t.control.steering
  }

  /** What was accepted after the loop broke is exactly what is left in the buffer. */
  predicate Unheard(t: Turn) {
    t.heard.Some? ==> t.heard.value <= |t.accepted| && t.control.steering == t.accepted[t.heard.value..]
  }

  predicate Flow(t: Turn) {
    && Conserved(t)
    && Unheard(t)
    && (forall i :: 0 <= i < |t.prompts| ==> t.prompts[i] != [])
    && (t.phase == Interrupted ==> t.control.steering != [] && t.stage == Loop)
    && (t.stage == Loop && Alive(t) ==> t.heard.None?)
    && (t.phase == Running <==> t.control.process.Some?)
    && (t.registered <==> Alive(t))
  }

  lemma ConsumedSnoc(prompts: seq<seq<Guidance>>, prompt: seq<Guidance>)
    ensures Consumed(prompts + [prompt]) == Consumed(prompts) + prompt
  {
    assert (prompts + [prompt])[..|prompts + [prompt]| - 1] == prompts;
  }

  lemma AppendFlow(t: Turn, guidance: Guidance)
    requires Conserved(t) && Unheard(t)
    ensures var u := t.(control := t.control.(steering := t.control.steering + [guidance]),
                        accepted := t.accepted + [guidance]);
            Conserved(u) && Unheard(u)
  {
    if t.heard.Some? {
      var h := t.heard.value;
      assert (t.accepted + [guidance])[h..] == t.accepted[h..] + [guidance];
    }
  }

  lemma TakeNothing(t: Turn, needsRecovery: bool)
    requires Flow(t) && Enabled(t, Take(needsRecovery)) && t.control.steering == []
    ensures Flow(Looked(t, needsRecovery))
  {
    hide Consumed;
    assert t.accepted[|t.accepted|..] == [];
    assert Consumed(t.prompts) + [] == Consumed(t.prompts);
  }

  lemma TakeGuidance(t: Turn, needsRecovery: bool)
    requires Flow(t) && Enabled(t, Take(needsRecovery)) && t.control.steering != []
    ensures Flow(Looked(t, needsRecovery))
  {
    ConsumedSnoc(t.prompts, t.control.steering);
    hide Consumed;
    assert Consumed(t.prompts + [t.control.steering]) + [] == Consumed(t.prompts + [t.control.steering]);
  }

  lemma TakeFlow(t: Turn, needsRecovery: bool)
    requires Flow(t) && Enabled(t, Take(needsRecovery))
    ensures Flow(Step(t, Take(needsRecovery)))
  {
    hide Flow, Looked;
    if t.control.steering == [] {
      TakeNothing(t, needsRecovery);
    } else {
      TakeGuidance(t, needsRecovery);
    }
  }

  lemma AcquireFlow(t: Turn, call: CallId)
    requires Flow(t) && Enabled(t, Acquire(call))
    ensures Flow(Step(t, Acquire(call)))
  {
    hide Consumed;
    AppendFlow(t, Guidance(call, t.calls[call].text));
  }

  lemma ExitFlow(t: Turn, exit: Exit, automated: bool)
    requires Flow(t) && t.phase == Running
    ensures Flow(Exited(t, exit, automated))
  {
    hide Consumed;
  }

  lemma QuietFlow(t: Turn, e: Event)
    requires Flow(t) && Enabled(t, e) && !e.Acquire? && !e.Take? && !e.ProcessExit?
    ensures Flow(Step(t, e))
  {
    hide Consumed;
  }

  lemma StepFlow(t: Turn, e: Event)
    requires Flow(t) && Enabled(t, e)
    ensures Flow(Step(t, e))
  {
    hide Flow, Exited;
    match e
    case Acquire(call) => AcquireFlow(t, call);
    case Take(needsRecovery) => TakeFlow(t, needsRecovery);
    case ProcessExit(exit, automated) => ExitFlow(t, exit, automated);
    case _ => QuietFlow(t, e);
  }

  /** Over every interleaving the guidance is conserved and an interrupt finds a buffer. */
  lemma {:induction false} RunFlow(t: Turn, events: seq<Event>)
    requires Flow(t) && CanRun(t, events)
    ensures Flow(Run(t, events))
    decreases |events|
  {
    if events != [] {
      hide Flow, Step, Enabled;
      StepFlow(t, events[0]);
      RunFlow(Step(t, events[0]), events[1..]);
    }
  }

  // ---------------------------------------------------------------- calls in every run

  function Callers(accepted: seq<Guidance>): set<CallId> {
    set i | 0 <= i < |accepted| :: accepted[i].call
  }

  /** Each `steer` call that is, or will be, answered yes stands in the history exactly once; the
      lock is held by the one call that waits for a process to go. */
  ghost predicate CallsOk(t: Turn) {
    && |Callers(t.accepted)| == |t.accepted|
    && (forall c :: c in Callers(t.accepted) <==> c in t.calls && !t.calls[c].Waiting? && t.calls[c] != Answered(false))
    && (forall c :: c in t.calls ==> c < t.nextCall && (t.calls[c].Terminating? <==> t.holder == Some(c)))
    && (t.holder.Some? ==> t.holder.value in t.calls)
  }

  lemma CallersSnoc(accepted: seq<Guidance>, guidance: Guidance)
    ensures Callers(accepted + [guidance]) == Callers(accepted) + {guidance.call}
  {
    var longer := accepted + [guidance];
    assert longer[|accepted|] == guidance;
    forall c | c in Callers(accepted) ensures c in Callers(longer) {
      var i :| 0 <= i < |accepted| && accepted[i].call == c;
      assert longer[i] == accepted[i];
    }
  }

  predicate Yes(call: Call) {
    call.Terminating? || call == Answered(true)
  }

  lemma CallAnswered(t: Turn, u: Turn, call: CallId, answer: Call)
    requires CallsOk(t) && t.holder == None && call in t.calls && t.calls[call].Waiting?
    requires u.calls == t.calls[call := answer] && u.nextCall == t.nextCall && !answer.Waiting?
    requires u.holder == if answer.Terminating? then Some(call) else None
    requires Callers(u.accepted) == if Yes(answer) then Callers(t.accepted) + {call} else Callers(t.accepted)
    requires |u.accepted| == if Yes(answer) then |t.accepted| + 1 else |t.accepted|
    ensures CallsOk(u)
  {
    hide Callers;
    assert call !in Callers(t.accepted);
    forall c
      ensures c in Callers(u.accepted) <==> c in u.calls && !u.calls[c].Waiting? && u.calls[c] != Answered(false)
    {
      assert c in Callers(t.accepted) <==> c in t.calls && !t.calls[c].Waiting? && t.calls[c] != Answered(false);
    }
  }

  lemma AcquireCalls(t: Turn, call: CallId)
    requires CallsOk(t) && Enabled(t, Acquire(call))
    ensures CallsOk(Step(t, Acquire(call)))
  {
    hide Callers, CallsOk;
    var u := Step(t, Acquire(call));
    CallersSnoc(t.accepted, Guidance(call, t.calls[call].text));
    CallAnswered(t, u, call, u.calls[call]);
  }

  lemma ArriveCalls(t: Turn, text: string)
    requires CallsOk(t)
    ensures CallsOk(t.(calls := t.calls[t.nextCall := Waiting(text)], nextCall := t.nextCall + 1))
  {
    hide Callers;
    assert t.nextCall !in t.calls;
    assert t.nextCall !in Callers(t.accepted);
  }

  lemma GoneCalls(t: Turn, call: CallId)
    requires CallsOk(t) && call in t.calls && t.calls[call].Terminating?
    ensures CallsOk(t.(calls := t.calls[call := Answered(true)], holder := None))
  {
    hide Callers;
    assert call in Callers(t.accepted);
  }

  lemma SameCalls(t: Turn, u: Turn)
    requires CallsOk(t)
    requires u.calls == t.calls && u.nextCall == t.nextCall && u.holder == t.holder && u.accepted == t.accepted
    ensures CallsOk(u)
  {
  }

  lemma StepCalls(t: Turn, e: Event)
    requires CallsOk(t) && Enabled(t, e)
    ensures CallsOk(Step(t, e))
  {
    hide CallsOk;
    match e
    case Acquire(call) => AcquireCalls(t, call);
    case Arrive(text) => ArriveCalls(t, text);
    case ProcessGone(call) => GoneCalls(t, call);
    case _ => SameCalls(t, Step(t, e));
  }

  lemma {:induction false} RunCalls(t: Turn, events: seq<Event>)
    requires CallsOk(t) && CanRun(t, events)
    ensures CallsOk(Run(t, events))
    decreases |events|
  {
    if events != [] {
      hide CallsOk, Step, Enabled;
      StepCalls(t, events[0]);
      RunCalls(Step(t, events[0]), events[1..]);
    }
  }

  /** Every run of a turn, whatever the interleaving: the guidance handed to the provider followed
      by the buffer is the accepted guidance in order, each accepted call stands in it once, no
      resume prompt is empty, and an interrupt always finds something to resume with. */
  lemma EveryRun(steerable: bool, events: seq<Event>)
    requires CanRun(Start(steerable), events)
    ensures var t := Run(Start(steerable), events);
            && t.accepted == Consumed(t.prompts) + t.control.steering
            && |Callers(t.accepted)| == |t.accepted|
            && (forall c :: c in Callers(t.accepted) <==> c in t.calls && Yes(t.calls[c]))
            && (forall i :: 0 <= i < |t.prompts| ==> t.prompts[i] != [])
            && (t.phase == Interrupted ==> t.control.steering != [])
  {
    RunFlow(Start(steerable), events);
    RunCalls(Start(steerable), events);
    hide Run, CanRun, Callers, Consumed;
  }

  /** What the next call to get the lock comes to. A launch that runs is terminated and the call waits for
      that; without one it is answered at once. A control that is not steerable refuses. */
  lemma AcquireInterrupts(t: Turn, c: CallId)
    requires Flow(t) && Enabled(t, Acquire(c))
    ensures var u := Step(t, Acquire(c));
            && (u.accepted == if t.control.steerable then t.accepted + [Guidance(c, t.calls[c].text)] else t.accepted)
            && u.control.process == t.control.process && u.phase == t.phase && u.prompts == t.prompts
            && (forall d :: d in t.calls && d != c ==> d in u.calls && u.calls[d] == t.calls[d])
            && if t.control.steerable && t.phase == Running
               then u.calls[c] == Terminating(t.control.process.value) && u.holder == Some(c)
               else u.calls[c] == Answered(t.control.steerable) && u.holder == None
  {
    hide Conserved, Unheard;
  }

  predicate Refused(t: Turn) {
    && !t.control.steerable && t.control.steering == [] && t.accepted == [] && t.prompts == [] && t.holder == None
    && forall c :: c in t.calls ==> t.calls[c].Waiting? || t.calls[c] == Answered(false)
  }

  lemma {:induction false} RefusedStays(t: Turn, events: seq<Event>)
    requires Refused(t) && CanRun(t, events)
    ensures Refused(Run(t, events))
    decreases |events|
  {
    if events != [] {
      RefusedStays(Step(t, events[0]), events[1..]);
    }
  }

  /** Without steering every call of every run is refused, and nothing is buffered or handed on. */
  lemma NeverSteerable(events: seq<Event>)
    requires CanRun(Start(false), events)
    ensures var t := Run(Start(false), events);
            && t.accepted == [] && t.control.steering == [] && t.prompts == [] && t.holder == None
            && forall c :: c in t.calls ==> t.calls[c].Waiting? || t.calls[c] == Answered(false)
  {
    RefusedStays(Start(false), events);
  }

  // ---------------------------------------------------------------- how the turn ends

  /** The turn ends well with a result nobody steered and that stands, with or without a recovery, or with
      the notice that its partial report timed out too. */
  predicate EndsWell(t: Turn, e: Event) {
    || (e.Take? && t.phase == Returned && t.control.steering == [] && !e.needsRecovery)
    || (e.AfterRecovery? && e.verdict == Stands)
    || (e.ProcessExit? && e.exit == TimedOut && t.stage == TimeoutRecovery)
  }

  /** It fails with what nobody catches: a fatal error, a timeout of a turn that is not automated, guidance
      past the loop, or a recovery that brought nothing. */
  predicate EndsBadly(t: Turn, e: Event) {
    || (e.ProcessExit? && e.exit == Fatal)
    || (e.ProcessExit? && e.exit == TimedOut && t.stage != TimeoutRecovery && !e.automated)
    || (e.ProcessExit? && (e.exit == Completed || e.exit == ServiceError) && t.control.steering != [] && t.stage != Loop)
    || (e.AfterRecovery? && e.verdict == Hopeless)
  }

  /** A step ends a turn exactly in these ways, and ending it takes the control out of reach. */
  lemma TurnEndsIff(t: Turn, e: Event)
    requires Flow(t) && Alive(t) && Enabled(t, e)
    ensures Step(t, e).phase == Done <==> EndsWell(t, e)
    ensures Step(t, e).phase == Failed <==> EndsBadly(t, e)
    ensures Step(t, e).registered <==> !EndsWell(t, e) && !EndsBadly(t, e)
  {
    if e.ProcessExit? {
      ExitEndsIff(t, e.exit, e.automated);
    } else {
      hide Conserved, Unheard, Exited;
    }
  }

  lemma ExitEndsIff(t: Turn, exit: Exit, automated: bool)
    requires Flow(t) && t.phase == Running
    ensures var e := ProcessExit(exit, automated);
            && (Step(t, e).phase == Done <==> EndsWell(t, e))
            && (Step(t, e).phase == Failed <==> EndsBadly(t, e))
            && (Step(t, e).registered <==> !EndsWell(t, e) && !EndsBadly(t, e))
  {
    hide Conserved, Unheard, Looked;
  }

  /** What a launch leaves behind when the turn goes on: guidance always interrupts the loop before its
      result is looked at, a service error is tried again, and a result is looked at in the same stage. */
  lemma LaunchGoesOn(t: Turn, exit: Exit, automated: bool)
    requires Flow(t) && t.phase == Running && !EndsWell(t, ProcessExit(exit, automated)) && !EndsBadly(t, ProcessExit(exit, automated))
    ensures var u := Step(t, ProcessExit(exit, automated));
            && u.control.process == None && u.accepted == t.accepted && u.control.steering == t.control.steering
            && u.stage == (if exit == TimedOut then TimeoutRecovery else t.stage)
            && (u.phase == Interrupted <==> exit != TimedOut && t.control.steering != [])
            && (u.phase == Returned <==> exit == Completed && t.control.steering == [])
            && (u.phase == Ready <==> exit == TimedOut || (exit == ServiceError && t.control.steering == []))
  {
    hide Conserved, Unheard;
  }

  /** A recovery that asks for another one is launched again, with nothing else changed. */
  lemma RecoveryGoesOn(t: Turn)
    requires Flow(t) && Enabled(t, AfterRecovery(Again))
    ensures var u := Step(t, AfterRecovery(Again));
            u.phase == Ready && u.stage == Recovery && u.control == t.control && u.accepted == t.accepted && u.prompts == t.prompts
  {
    hide Conserved, Unheard;
  }

  /** The loop resumes with exactly the buffered guidance, and breaks without any. */
  lemma LoopResumes(t: Turn, needsRecovery: bool)
    requires Flow(t) && Enabled(t, Take(needsRecovery))
    ensures var u := Step(t, Take(needsRecovery));
            && u.control.steering == []
            && (if t.control.steering != []
                then u.prompts == t.prompts + [t.control.steering] && u.phase == Ready && u.stage == Loop
                else u.prompts == t.prompts && (needsRecovery ==> u.phase == Ready && u.stage == Recovery))
  {
    hide Conserved, Unheard;
  }

  // ---------------------------------------------------------------- delivery

  /** The launch loop is behind the turn: it broke, its launch timed out, or the turn is over. */
  predicate PastLoop(t: Turn) {
    t.stage != Loop || !Alive(t)
  }

  /** Once the turn is past the loop no prompt carries guidance any more, and the mark stays. */
  lemma {:induction false} NoMorePrompts(t: Turn, events: seq<Event>)
    requires Flow(t) && PastLoop(t) && CanRun(t, events)
    ensures Run(t, events).prompts == t.prompts && Run(t, events).heard == t.heard && PastLoop(Run(t, events))
    decreases |events|
  {
    if events != [] {
      StepFlow(t, events[0]);
      HeardStays(t, events[0]);
      hide Flow, Step, Enabled, PastLoop;
      NoMorePrompts(Step(t, events[0]), events[1..]);
    }
  }

  lemma HeardStays(t: Turn, e: Event)
    requires Flow(t) && PastLoop(t) && Enabled(t, e)
    ensures Step(t, e).prompts == t.prompts && Step(t, e).heard == t.heard && PastLoop(Step(t, e))
  {
    hide Conserved, Unheard, Consumed;
  }

  /** Nobody can reach the control any more. */
  predicate Settled(t: Turn) {
    !t.registered && forall c :: c in t.calls ==> !t.calls[c].Waiting?
  }

  lemma {:induction false} SettledStays(t: Turn, events: seq<Event>)
    requires Flow(t) && Settled(t) && CanRun(t, events)
    ensures Settled(Run(t, events)) && Run(t, events).control.steering == t.control.steering
    decreases |events|
  {
    if events != [] {
      StepFlow(t, events[0]);
      SettledStep(t, events[0]);
      hide Flow, Step, Enabled, Settled;
      SettledStays(Step(t, events[0]), events[1..]);
    }
  }

  lemma SettledStep(t: Turn, e: Event)
    requires Flow(t) && Settled(t) && Enabled(t, e)
    ensures Settled(Step(t, e)) && Step(t, e).control.steering == t.control.steering
  {
    hide Conserved, Unheard, Consumed;
  }

  /** A waiting call can always get its guidance accepted: let the process go, then the lock. */
  lemma WaitingGetsIn(t: Turn, call: CallId) returns (events: seq<Event>)
    requires Flow(t) && CallsOk(t) && t.control.steerable
    requires call in t.calls && t.calls[call].Waiting?
    ensures CanRun(t, events) && Run(t, events).control.steering != []
  {
    if t.holder == None {
      events := AcquireNow(t, call);
    } else {
      var gone := ProcessGone(t.holder.value);
      if t.phase == Running {
        var exit := ProcessExit(Fatal, false);
        var u := Step(t, exit);
        var v := Step(u, gone);
        events := AcquireNow(v, call);
        RunCons(u, gone, events);
        events := [gone] + events;
        RunCons(t, exit, events);
        events := [exit] + events;
      } else {
        var v := Step(t, gone);
        events := AcquireNow(v, call);
        RunCons(t, gone, events);
        events := [gone] + events;
      }
    }
  }

  lemma AcquireNow(t: Turn, call: CallId) returns (events: seq<Event>)
    requires t.control.steerable && Enabled(t, Acquire(call))
    ensures CanRun(t, events) && Run(t, events).control.steering != []
  {
    events := [Acquire(call)];
    assert [Acquire(call)] + [] == events;
    RunCons(t, Acquire(call), []);
  }

  /** Past the loop, everything accepted has been delivered and stays so exactly when
      the buffer is empty and the control can no longer be reached: it has left `_active_runs` and
      no `steer` call still waits for its lock. Otherwise some continuation answers a `steer` call
      with yes and never hands its guidance to the provider. */
  lemma DeliveredIff(t: Turn)
    requires Flow(t) && CallsOk(t) && t.control.steerable && PastLoop(t)
    ensures (forall events :: CanRun(t, events) ==> Run(t, events).control.steering == [])
            <==> t.control.steering == [] && Settled(t)
  {
    if t.control.steering == [] && Settled(t) {
      forall events | CanRun(t, events) ensures Run(t, events).control.steering == [] {
        SettledStays(t, events);
      }
    } else {
      var events := Undelivered(t);
      assert CanRun(t, events) && Run(t, events).control.steering != [];
    }
  }

  lemma Undelivered(t: Turn) returns (events: seq<Event>)
    requires Flow(t) && CallsOk(t) && t.control.steerable && (t.control.steering != [] || !Settled(t))
    ensures CanRun(t, events) && Run(t, events).control.steering != []
  {
    if t.control.steering != [] {
      events := [];
    } else if c :| c in t.calls && t.calls[c].Waiting? {
      events := WaitingGetsIn(t, c);
    } else {
      var arrive := Arrive("more");
      var u := Step(t, arrive);
      StepFlow(t, arrive);
      StepCalls(t, arrive);
      var later := WaitingGetsIn(u, t.nextCall);
      events := [arrive] + later;
      assert events[1..] == later;
    }
  }

  /** When the loop breaks, all guidance accepted so far is in the prompts. With no recovery to
      run and no call waiting, that is final. */
  lemma BreakDelivers(t: Turn, needsRecovery: bool)
    requires Flow(t) && Enabled(t, Take(needsRecovery)) && t.phase == Returned && t.control.steering == []
    ensures var u := Step(t, Take(needsRecovery));
            && Consumed(u.prompts) == u.accepted && u.heard.Some?
            && (Settled(u) <==> !needsRecovery && forall c :: c in t.calls ==> !t.calls[c].Waiting?)
  {
    assert Consumed(t.prompts) + [] == Consumed(t.prompts);
    hide Consumed;
  }

  /** Guidance accepted while a recovery run is going is not only lost: it interrupts a launch that
      nobody resumes, and the turn fails. */
  lemma RecoveryFailsOnGuidance(t: Turn, exit: Exit, automated: bool)
    requires Flow(t) && t.stage == Recovery && t.phase == Running && t.control.steering != []
    requires exit == Completed || exit == ServiceError
    ensures Step(t, ProcessExit(exit, automated)).phase == Failed
  {
  }

  /** Such a run exists from the start: a result that needs recovery, then one accepted call. */
  lemma GuidanceCanBeLost()
    ensures exists events :: CanRun(Start(true), events)
              && Run(Start(true), events).phase == Failed
              && Run(Start(true), events).calls == map[0 := Answered(true)]
              && Run(Start(true), events).prompts == []
  {
    var t0 := Start(true);
    var t1 := Step(t0, Launch);
    var t2 := Step(t1, ProcessExit(Completed, false));
    var t3 := Step(t2, Take(true));
    var events := LostInRecovery(t3);
    RunCons(t2, Take(true), events);
    events := [Take(true)] + events;
    RunCons(t1, ProcessExit(Completed, false), events);
    events := [ProcessExit(Completed, false)] + events;
    RunCons(t0, Launch, events);
  }

  lemma LostInRecovery(t3: Turn) returns (events: seq<Event>)
    requires t3 == Turn(Control(true, None, []), map[], 0, None, true, Recovery, Ready, 1, [], [], Some(0))
    ensures CanRun(t3, events)
    ensures Run(t3, events).phase == Failed && Run(t3, events).prompts == []
    ensures Run(t3, events).calls == map[0 := Answered(true)]
  {
    var t4 := Step(t3, Arrive("also check Android"));
    var t5 := Step(t4, Acquire(0));
    var t6 := Step(t5, Launch);
    events := [];
    RunCons(t6, ProcessExit(Completed, false), events);
    events := [ProcessExit(Completed, false)] + events;
    RunCons(t5, Launch, events);
    events := [Launch] + events;
    RunCons(t4, Acquire(0), events);
    events := [Acquire(0)] + events;
    RunCons(t3, Arrive("also check Android"), events);
    events := [Arrive("also check Android")] + events;
  }

  /** The other way to lose guidance: an automated turn times out, the call is accepted while the
      partial report is asked for, and that times out as well. The turn ends as if all was well. */
  lemma TimeoutCanLoseGuidance()
    ensures exists events :: CanRun(Start(true), events)
              && Run(Start(true), events).phase == Done
              && Run(Start(true), events).calls == map[0 := Answered(true)]
              && Run(Start(true), events).prompts == []
              && Run(Start(true), events).control.steering == [Guidance(0, "also check Android")]
  {
    var t0 := Start(true);
    var t1 := Step(t0, Launch);
    var t2 := Step(t1, ProcessExit(TimedOut, true));
    var events := LostInTimeout(t2);
    RunCons(t1, ProcessExit(TimedOut, true), events);
    events := [ProcessExit(TimedOut, true)] + events;
    RunCons(t0, Launch, events);
  }

  lemma LostInTimeout(t2: Turn) returns (events: seq<Event>)
    requires t2 == Turn(Control(true, None, []), map[], 0, None, true, TimeoutRecovery, Ready, 1, [], [], None)
    ensures CanRun(t2, events)
    ensures Run(t2, events).phase == Done && Run(t2, events).prompts == []
    ensures Run(t2, events).calls == map[0 := Answered(true)]
    ensures Run(t2, events).control.steering == [Guidance(0, "also check Android")]
  {
    var t3 := Step(t2, Arrive("also check Android"));
    var t4 := Step(t3, Acquire(0));
    var t5 := Step(t4, Launch);
    events := [];
    RunCons(t5, ProcessExit(TimedOut, true), events);
    events := [ProcessExit(TimedOut, true)] + events;
    RunCons(t4, Launch, events);
    events := [Launch] + events;
    RunCons(t3, Acquire(0), events);
    events := [Acquire(0)] + events;
    RunCons(t2, Arrive("also check Android"), events);
    events := [Arrive("also check Android")] + events;
  }

  lemma RunCons(t: Turn, e: Event, rest: seq<Event>)
    requires Enabled(t, e) && CanRun(Step(t, e), rest)
    ensures CanRun(t, [e] + rest) && Run(t, [e] + rest) == Run(Step(t, e), rest)
  {
    assert ([e] + rest)[1..] == rest;
  }
}
