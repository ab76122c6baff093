/** `AlertDashboardResponder.handle`: deliveries of report messages to a channel that goes on being
    written to, interleaved at every await. */
module Dashboard {
  import opened Wrappers
  import opened Ordering
  import opened Reports

  /** Message times identify messages: the detector's messages have distinct, increasing ones. */
  type Stamp = int

  /** `Settling`: until the reports are collected. `Complete`: they are a complete run that ends with
      this message. `Building`: the state file did not name the run. `Built`: it does now. */
  datatype Stage = Settling | Complete | Building | Built | Done

  datatype Task = Task(stamp: Stamp, stage: Stage)

  /** `posted` is the detector's part of the channel, `state` the run the state file names, `recorded`
      all runs it has named, in order. */
  datatype World = World(posted: seq<Message>, inFlight: set<Stamp>, state: Option<Stamp>, tasks: seq<Task>, recorded: seq<Stamp>)

  datatype Event =
    | Post(message: Message)
    | Deliver(stamp: Stamp)                                      // Slack may deliver a message again
    | Collect(task: nat, messages: seq<Message>, from: nat)     // the history read, the part cut off by its limits
    | Check(task: nat)
    | Record(task: nat)
    | End(task: nat)                                             // announced, failed or cancelled

  predicate HeaderAt(posted: seq<Message>, stamp: Stamp) {
    exists h :: 0 <= h < |posted| && posted[h].at == stamp && IsHeader(posted[h])
  }

  /** The messages from `from` on, in whatever order the history lists them. */
  ghost predicate HistoryRead(posted: seq<Message>, from: nat, messages: seq<Message>) {
    && from <= |posted|
    && DistinctTimes(messages)
    && forall m :: m in messages <==> m in posted[from..]
  }

  ghost predicate Enabled(w: World, e: Event) {
    match e
    case Post(m) => w.posted != [] ==> w.posted[|w.posted| - 1].at < m.at
    case Deliver(stamp) => HeaderAt(w.posted, stamp)
    case Collect(i, messages, from) => i < |w.tasks| && w.tasks[i].stage.Settling? && HistoryRead(w.posted, from, messages)
    case Check(i) => i < |w.tasks| && w.tasks[i].stage.Complete?
    case Record(i) => i < |w.tasks| && w.tasks[i].stage.Building?
    case End(i) => i < |w.tasks| && !w.tasks[i].stage.Done?
  }

  function Ended(w: World, i: nat): World
    requires i < |w.tasks|
  {
    w.(tasks := w.tasks[i := w.tasks[i].(stage := Done)], inFlight := w.inFlight - {w.tasks[i].stamp})
  }

  function Moved(w: World, i: nat, stage: Stage): World
    requires i < |w.tasks|
  {
    w.(tasks := w.tasks[i := w.tasks[i].(stage := stage)])
  }

  ghost function Step(w: World, e: Event): World
    requires Enabled(w, e)
  {
    match e
    case Post(m) => w.(posted := w.posted + [m])
    case Deliver(stamp) =>
      if stamp in w.inFlight then w
      else w.(inFlight := w.inFlight + {stamp}, tasks := w.tasks + [Task(stamp, Settling)])
    case Collect(i, messages, _) => if RunEnd(messages) == Some(w.tasks[i].stamp) then Moved(w, i, Complete) else Ended(w, i)
    case Check(i) => if w.state == Some(w.tasks[i].stamp) then Ended(w, i) else Moved(w, i, Building)
    case Record(i) =>
      Moved(w, i, Built).(state := Some(w.tasks[i].stamp), recorded := w.recorded + [w.tasks[i].stamp])
    case End(i) => Ended(w, i)
  }

  /** The reports the messages describe decide whether they hold a complete run and where it ends. */
  lemma RunEndIs(messages: seq<Message>, reports: map<string, Report>)
    requires Describes(reports, Sort(messages, Earlier))
    ensures OneRun(reports) ==> HasAll(reports) && RunEnd(messages) == Some(LatestReport(reports))
    ensures !OneRun(reports) ==> RunEnd(messages) == None
  {
    var ordered := Sort(messages, Earlier);
    AssembledDescribes(ordered);
    DescribesUnique(reports, Assembled(ordered), ordered);
    hide Describes, OneRun, Assembled, Sort;
    if OneRun(reports) {
      OneRunHasAll(reports);
    }
  }

  class AlertDashboardResponder {
    var inFlight: set<Stamp>
    var state: Option<Stamp>
    var tasks: seq<Task>
    ghost var posted: seq<Message>
    ghost var recorded: seq<Stamp>

    constructor (saved: Option<Stamp>, ghost posted: seq<Message>)
      ensures State() == Start(saved, posted)
    {
      this.posted := posted;
      inFlight, state, tasks, recorded := {}, saved, [], if saved.Some? then [saved.value] else [];
    }

    ghost function State(): World
      reads this
    {
      World(posted, inFlight, state, tasks, recorded)
    }

    method Handle(stamp: Stamp)
      requires Enabled(State(), Deliver(stamp))
      modifies this
      ensures State() == Step(old(State()), Deliver(stamp))
    {
      if stamp in inFlight {
        return;
      }
      inFlight := inFlight + {stamp};
      tasks := tasks + [Task(stamp, Settling)];
    }

    method Collected(i: nat, messages: seq<Message>, ghost from: nat)
      requires Enabled(State(), Collect(i, messages, from))
      modifies this
      ensures State() == Step(old(State()), Collect(i, messages, from))
    {
      var reports := CollectReports(messages);
      RunEndIs(messages, reports);
      var run := CompleteRun(reports);
      if run.None? || LatestReport(reports) != tasks[i].stamp {
        Discard(i);
      } else {
        tasks := tasks[i := tasks[i].(stage := Complete)];
      }
    }

    method AlreadyBuilt(i: nat)
      requires Enabled(State(), Check(i))
      modifies this
      ensures State() == Step(old(State()), Check(i))
    {
      if state == Some(tasks[i].stamp) {
        Discard(i);
      } else {
        tasks := tasks[i := tasks[i].(stage := Building)];
      }
    }

    method RecordBuilt(i: nat)
      requires Enabled(State(), Record(i))
      modifies this
      ensures State() == Step(old(State()), Record(i))
    {
      state := Some(tasks[i].stamp);
      recorded := recorded + [tasks[i].stamp];
      tasks := tasks[i := tasks[i].(stage := Built)];
    }

    method Discard(i: nat)
      requires Enabled(State(), End(i))
      modifies this
      ensures State() == Ended(old(State()), i)
    {
      inFlight := inFlight - {tasks[i].stamp};
      tasks := tasks[i := tasks[i].(stage := Done)];
    }
  }

  // ---------------------------------------------------------------- every run of the responder

  /** The responder starts with what the state file names, a run of the channel's past. */
  function Start(saved: Option<Stamp>, posted: seq<Message>): World {
    World(posted, {}, saved, [], if saved.Some? then [saved.value] else [])
  }

  predicate CanStart(saved: Option<Stamp>, posted: seq<Message>) {
    Ascending(posted, Earlier) && (saved.Some? ==> HeaderAt(posted, saved.value))
  }

  ghost predicate CanRun(w: World, events: seq<Event>)
    decreases |events|
  {
    events != [] ==> Enabled(w, events[0]) && CanRun(Step(w, events[0]), events[1..])
  }

  ghost function Run(w: World, events: seq<Event>): World
    requires CanRun(w, events)
    decreases |events|
  {
    if events == [] then w else Run(Step(w, events[0]), events[1..])
  }

  /** One handler per message at a time, and exactly those are in flight. */
  predicate Single(w: World) {
    && (forall i, j :: 0 <= i < j < |w.tasks| && !w.tasks[i].stage.Done? && !w.tasks[j].stage.Done? ==>
          w.tasks[i].stamp != w.tasks[j].stamp)
    && (forall i :: 0 <= i < |w.tasks| && !w.tasks[i].stage.Done? ==> w.tasks[i].stamp in w.inFlight)
  }

  predicate Handled(w: World, stamp: Stamp) {
    exists i :: 0 <= i < |w.tasks| && w.tasks[i].stamp == stamp && !w.tasks[i].stage.Done?
  }

  /** No message stays in flight without a handler. */
  predicate Tracked(w: World) {
    forall stamp :: stamp in w.inFlight ==> Handled(w, stamp)
  }

  /** No run is rebuilt while the state file names it. */
  predicate NeverAgain(w: World) {
    && (forall k :: 0 <= k < |w.recorded| - 1 ==> w.recorded[k] != w.recorded[k + 1])
    && w.state == (if w.recorded == [] then None else Some(w.recorded[|w.recorded| - 1]))
    && (forall i :: 0 <= i < |w.tasks| && w.tasks[i].stage.Building? ==> w.state != Some(w.tasks[i].stamp))
  }

  /** The channel is in order, and everything handled or recorded is the time of a header in it. */
  predicate Dated(w: World) {
    && Ascending(w.posted, Earlier)
    && (forall i :: 0 <= i < |w.tasks| ==> HeaderAt(w.posted, w.tasks[i].stamp))
    && (forall k :: 0 <= k < |w.recorded| ==> HeaderAt(w.posted, w.recorded[k]))
  }

  lemma StepSingle(w: World, e: Event)
    requires Single(w) && Enabled(w, e)
    ensures Single(Step(w, e))
  {
    hide RunEnd, HeaderAt, HistoryRead;
  }

  lemma StillHandled(w: World, e: Event, stamp: Stamp)
    requires Enabled(w, e) && Handled(w, stamp) && stamp in Step(w, e).inFlight
    ensures Handled(Step(w, e), stamp)
  {
    hide RunEnd, HeaderAt, HistoryRead;
    var i :| 0 <= i < |w.tasks| && w.tasks[i].stamp == stamp && !w.tasks[i].stage.Done?;
    assert Step(w, e).tasks[i].stamp == stamp;
  }

  lemma StepTracked(w: World, e: Event)
    requires Tracked(w) && Enabled(w, e)
    ensures Tracked(Step(w, e))
  {
    hide RunEnd, HeaderAt, HistoryRead;
    var u := Step(w, e);
    forall stamp | stamp in u.inFlight ensures Handled(u, stamp) {
      if stamp in w.inFlight {
        StillHandled(w, e, stamp);
      } else {
        assert u.tasks[|w.tasks|].stamp == stamp;
      }
    }
  }

  lemma StepNeverAgain(w: World, e: Event)
    requires Single(w) && NeverAgain(w) && Enabled(w, e)
    ensures NeverAgain(Step(w, e))
  {
    hide RunEnd, HeaderAt, HistoryRead;
    var u := Step(w, e);
    assert forall k :: 0 <= k < |w.recorded| ==> u.recorded[k] == w.recorded[k];
  }

  lemma HeaderStays(posted: seq<Message>, m: Message, stamp: Stamp)
    requires HeaderAt(posted, stamp)
    ensures HeaderAt(posted + [m], stamp)
  {
    var h :| 0 <= h < |posted| && posted[h].at == stamp && IsHeader(posted[h]);
    assert (posted + [m])[h] == posted[h];
  }

  lemma PostDated(w: World, m: Message)
    requires Dated(w) && Enabled(w, Post(m))
    ensures Dated(Step(w, Post(m)))
  {
    hide HeaderAt;
    forall stamp | HeaderAt(w.posted, stamp) ensures HeaderAt(w.posted + [m], stamp) {
      HeaderStays(w.posted, m, stamp);
    }
  }

  lemma StepDated(w: World, e: Event)
    requires Dated(w) && Enabled(w, e)
    ensures Dated(Step(w, e))
  {
    if e.Post? {
      PostDated(w, e.message);
    } else {
      hide RunEnd, HeaderAt, HistoryRead, Ascending;
    }
  }

  /** All of it, over any run. */
  ghost predicate Sound(w: World) {
    Single(w) && Tracked(w) && NeverAgain(w) && Dated(w)
  }

  lemma {:induction false} RunSound(w: World, events: seq<Event>)
    requires Sound(w) && CanRun(w, events)
    ensures Sound(Run(w, events))
    decreases |events|
  {
    if events != [] {
      StepSingle(w, events[0]);
      StepTracked(w, events[0]);
      StepNeverAgain(w, events[0]);
      StepDated(w, events[0]);
      hide Single, Tracked, NeverAgain, Dated, Step, Enabled;
      RunSound(Step(w, events[0]), events[1..]);
    }
  }

  lemma StartSound(saved: Option<Stamp>, posted: seq<Message>)
    requires CanStart(saved, posted)
    ensures Sound(Start(saved, posted))
  {
  }

  /** However deliveries repeat and overlap: a message has one handler at a time, and no dashboard is
      rebuilt for the run it already shows. */
  lemma ServiceNeverAgain(saved: Option<Stamp>, posted: seq<Message>, events: seq<Event>)
    requires CanStart(saved, posted) && CanRun(Start(saved, posted), events)
    ensures var u := Run(Start(saved, posted), events);
            && (forall k :: 0 <= k < |u.recorded| - 1 ==> u.recorded[k] != u.recorded[k + 1])
            && (forall i, j :: 0 <= i < j < |u.tasks| && !u.tasks[i].stage.Done? && !u.tasks[j].stage.Done? ==>
                  u.tasks[i].stamp != u.tasks[j].stamp)
            && (forall stamp :: stamp in u.inFlight <==> Handled(u, stamp))
  {
    StartSound(saved, posted);
    RunSound(Start(saved, posted), events);
    hide Run, CanRun, Dated;
  }

  // ---------------------------------------------------------------- only complete runs

  /** The handler itself collected a complete run that its own message ends. */
  ghost predicate EndsRun(task: nat, stamp: Stamp, past: seq<Event>) {
    exists e :: e in past && e.Collect? && e.task == task && RunEnd(e.messages) == Some(stamp)
  }

  /** So did every handler that is past its collection. */
  ghost predicate TasksConfirmed(w: World, past: seq<Event>) {
    forall i :: 0 <= i < |w.tasks| && !w.tasks[i].stage.Settling? && !w.tasks[i].stage.Done? ==> EndsRun(i, w.tasks[i].stamp, past)
  }

  ghost predicate RecordConfirmed(w: World, past: seq<Event>, stamp: Stamp) {
    exists i :: 0 <= i < |w.tasks| && w.tasks[i].stamp == stamp && EndsRun(i, stamp, past)
  }

  ghost predicate Confirmed(w: World, past: seq<Event>, before: nat) {
    && before <= |w.recorded|
    && TasksConfirmed(w, past)
    && forall k :: before <= k < |w.recorded| ==> RecordConfirmed(w, past, w.recorded[k])
  }

  lemma StillEnds(task: nat, stamp: Stamp, past: seq<Event>, e: Event)
    requires EndsRun(task, stamp, past)
    ensures EndsRun(task, stamp, past + [e])
  {
    var c :| c in past && c.Collect? && c.task == task && RunEnd(c.messages) == Some(stamp);
    assert c in past + [e];
  }

  lemma NewlyEnds(e: Event, stamp: Stamp, past: seq<Event>)
    requires e.Collect? && RunEnd(e.messages) == Some(stamp)
    ensures EndsRun(e.task, stamp, past + [e])
  {
    assert e in past + [e];
  }

  lemma StepTasksConfirmed(w: World, e: Event, past: seq<Event>)
    requires TasksConfirmed(w, past) && Enabled(w, e)
    ensures TasksConfirmed(Step(w, e), past + [e])
  {
    hide EndsRun, RunEnd, HeaderAt, HistoryRead;
    var u := Step(w, e);
    forall i | 0 <= i < |u.tasks| && !u.tasks[i].stage.Settling? && !u.tasks[i].stage.Done?
      ensures EndsRun(i, u.tasks[i].stamp, past + [e])
    {
      if w.tasks[i].stage.Settling? {
        NewlyEnds(e, u.tasks[i].stamp, past);
      } else {
        StillEnds(i, u.tasks[i].stamp, past, e);
      }
    }
  }

  /** Handlers keep their messages. */
  lemma StampsStay(w: World, e: Event, i: nat)
    requires Enabled(w, e) && i < |w.tasks|
    ensures i < |Step(w, e).tasks| && Step(w, e).tasks[i].stamp == w.tasks[i].stamp
  {
    hide RunEnd, HeaderAt, HistoryRead;
  }

  lemma RecordStays(w: World, e: Event, past: seq<Event>, stamp: Stamp)
    requires Enabled(w, e) && RecordConfirmed(w, past, stamp)
    ensures RecordConfirmed(Step(w, e), past + [e], stamp)
  {
    hide Step, Enabled, EndsRun;
    var i :| 0 <= i < |w.tasks| && w.tasks[i].stamp == stamp && EndsRun(i, stamp, past);
    StampsStay(w, e, i);
    StillEnds(i, stamp, past, e);
  }

  lemma RecordedAfter(w: World, e: Event)
    requires Enabled(w, e)
    ensures Step(w, e).recorded == if e.Record? then w.recorded + [w.tasks[e.task].stamp] else w.recorded
  {
    hide RunEnd, HeaderAt, HistoryRead;
  }

  lemma StepConfirmed(w: World, e: Event, past: seq<Event>, before: nat)
    requires Confirmed(w, past, before) && Enabled(w, e)
    ensures Confirmed(Step(w, e), past + [e], before)
  {
    hide Step, Enabled, TasksConfirmed, RecordConfirmed, EndsRun, RunEnd, HeaderAt, HistoryRead;
    StepTasksConfirmed(w, e, past);
    RecordedAfter(w, e);
    if e.Record? {
      NewRecord(w, e, past);
    }
    var u, later := Step(w, e), past + [e];
    forall k | before <= k < |u.recorded| ensures RecordConfirmed(u, later, u.recorded[k]) {
      if k < |w.recorded| {
        RecordStays(w, e, past, w.recorded[k]);
      }
    }
  }

  lemma NewRecord(w: World, e: Event, past: seq<Event>)
    requires TasksConfirmed(w, past) && Enabled(w, e) && e.Record?
    ensures RecordConfirmed(Step(w, e), past + [e], w.tasks[e.task].stamp)
  {
    hide EndsRun, RunEnd, HeaderAt, HistoryRead;
    StillEnds(e.task, w.tasks[e.task].stamp, past, e);
  }

  lemma {:induction false} RunConfirmed(w: World, events: seq<Event>, past: seq<Event>, before: nat)
    requires Confirmed(w, past, before) && CanRun(w, events)
    ensures Confirmed(Run(w, events), past + events, before)
    decreases |events|
  {
    if events == [] {
      assert past + [] == past;
    } else {
      StepConfirmed(w, events[0], past, before);
      hide Confirmed, Step, Enabled;
      RunConfirmed(Step(w, events[0]), events[1..], past + [events[0]], before);
      assert past + [events[0]] + events[1..] == past + events;
    }
  }

  /** Whatever is rebuilt is the last of the three reports of one run, as collected by the handler of
      that very message: all three are there, any two within an hour, and none is later. */
  lemma OnlyCompleteRuns(saved: Option<Stamp>, posted: seq<Message>, events: seq<Event>, k: nat)
    requires CanRun(Start(saved, posted), events)
    requires (if saved.Some? then 1 else 0) <= k < |Run(Start(saved, posted), events).recorded|
    ensures var u := Run(Start(saved, posted), events);
            exists i, e | 0 <= i < |u.tasks| && e in events ::
              && u.tasks[i].stamp == u.recorded[k] && e.Collect? && e.task == i
              && var reports := Assembled(Sort(e.messages, Earlier));
                 OneRun(reports) && HasAll(reports) && LatestReport(reports) == u.recorded[k]
  {
    RunConfirmed(Start(saved, posted), events, [], if saved.Some? then 1 else 0);
    assert [] + events == events;
    var u := Run(Start(saved, posted), events);
    var i :| 0 <= i < |u.tasks| && u.tasks[i].stamp == u.recorded[k] && EndsRun(i, u.recorded[k], events);
    hide Run, CanRun, OneRun, Assembled, Sort, HasAll, LatestReport;
    var e :| e in events && e.Collect? && e.task == i && RunEnd(e.messages) == Some(u.recorded[k]);
    RunEndHasAll(e.messages);
  }

  lemma RunEndHasAll(messages: seq<Message>)
    requires RunEnd(messages).Some?
    ensures var reports := Assembled(Sort(messages, Earlier));
            OneRun(reports) && HasAll(reports) && Some(LatestReport(reports)) == RunEnd(messages)
  {
    hide OneRun, Assembled, Sort, LatestReport;
    OneRunHasAll(Assembled(Sort(messages, Earlier)));
  }

  // ---------------------------------------------------------------- building a run again

  /** The last header of the channel. */
  predicate Newest(posted: seq<Message>, stamp: Stamp) {
    exists h :: 0 <= h < |posted| && posted[h].at == stamp && IsHeader(posted[h])
                && forall i :: h < i < |posted| ==> !IsHeader(posted[i])
  }

  lemma NewestIsLatest(posted: seq<Message>, stamp: Stamp, other: Stamp)
    requires Ascending(posted, Earlier) && Newest(posted, stamp) && HeaderAt(posted, other)
    ensures other <= stamp
  {
  }

  /** `stamp` was recorded, and since then at least one run was, none of them this one. */
  predicate OtherSince(recorded: seq<Stamp>, stamp: Stamp) {
    exists k :: 0 <= k < |recorded| - 1 && recorded[k] == stamp && forall j :: k < j < |recorded| ==> recorded[j] != stamp
  }

  /** The same, and all of them are older. */
  predicate OlderSince(recorded: seq<Stamp>, stamp: Stamp) {
    exists k :: 0 <= k < |recorded| - 1 && recorded[k] == stamp && forall j :: k < j < |recorded| ==> recorded[j] < stamp
  }

  lemma {:induction false} LastRecorded(recorded: seq<Stamp>, stamp: Stamp) returns (k: nat)
    requires stamp in recorded
    ensures k < |recorded| && recorded[k] == stamp && forall j :: k < j < |recorded| ==> recorded[j] != stamp
  {
    var n := |recorded| - 1;
    if recorded[n] == stamp {
      k := n;
    } else {
      assert recorded == recorded[..n] + [recorded[n]];
      k := LastRecorded(recorded[..n], stamp);
    }
  }

  /** When the check of a run that was built before lets it be built again. In every reachable state:
      exactly if another run was recorded since. As long as the run is the channel's newest, that is an
      older one, whose slow rebuild recorded late. */
  lemma RebuildIff(saved: Option<Stamp>, posted: seq<Message>, events: seq<Event>, i: nat)
    requires CanStart(saved, posted) && CanRun(Start(saved, posted), events)
    requires var w := Run(Start(saved, posted), events);
             i < |w.tasks| && w.tasks[i].stage.Complete? && w.tasks[i].stamp in w.recorded
    ensures var w := Run(Start(saved, posted), events);
            var stamp := w.tasks[i].stamp;
            && (Step(w, Check(i)).tasks[i].stage.Building? <==> OtherSince(w.recorded, stamp))
            && (Newest(w.posted, stamp) ==> (Step(w, Check(i)).tasks[i].stage.Building? <==> OlderSince(w.recorded, stamp)))
  {
    StartSound(saved, posted);
    RunSound(Start(saved, posted), events);
    CheckBuildsIff(Run(Start(saved, posted), events), i);
  }

  lemma CheckBuildsIff(w: World, i: nat)
    requires Sound(w) && i < |w.tasks| && w.tasks[i].stage.Complete? && w.tasks[i].stamp in w.recorded
    ensures var stamp := w.tasks[i].stamp;
            && (Step(w, Check(i)).tasks[i].stage.Building? <==> OtherSince(w.recorded, stamp))
            && (Newest(w.posted, stamp) ==> (Step(w, Check(i)).tasks[i].stage.Building? <==> OlderSince(w.recorded, stamp)))
  {
    hide RunEnd, HistoryRead, Newest, HeaderAt, Single, Tracked, OtherSince, OlderSince, Ascending;
    var stamp := w.tasks[i].stamp;
    SinceIff(w.recorded, stamp);
    if Newest(w.posted, stamp) {
      forall k | 0 <= k < |w.recorded| ensures w.recorded[k] <= stamp {
        NewestIsLatest(w.posted, stamp, w.recorded[k]);
      }
    }
  }

  lemma SinceIff(recorded: seq<Stamp>, stamp: Stamp)
    requires stamp in recorded
    ensures OtherSince(recorded, stamp) <==> recorded[|recorded| - 1] != stamp
    ensures (forall k :: 0 <= k < |recorded| ==> recorded[k] <= stamp) ==> (OlderSince(recorded, stamp) <==> OtherSince(recorded, stamp))
  {
    var k := LastRecorded(recorded, stamp);
    if recorded[|recorded| - 1] != stamp {
      assert k < |recorded| - 1;
    }
  }

  // ---------------------------------------------------------------- what a collection can find

  /** A complete run found in the history ends with the channel's newest header: a handler of an older
      message never goes on, however late it collects. */
  lemma CollectedIsNewest(posted: seq<Message>, from: nat, messages: seq<Message>, stamp: Stamp)
    requires Ascending(posted, Earlier) && HistoryRead(posted, from, messages) && RunEnd(messages) == Some(stamp)
    ensures Newest(posted, stamp)
  {
    var ordered := posted[from..];
    HistoryInOrder(posted, from, messages);
    RunEndHasAll(messages);
    var reports := Assembled(ordered);
    var h := LatestHeader(ordered, reports);
    forall i | from + h < i < |posted| ensures !IsHeader(posted[i]) {
      assert ordered[i - from] == posted[i];
    }
    assert posted[from + h] == ordered[h];
  }

  lemma HistoryInOrder(posted: seq<Message>, from: nat, messages: seq<Message>)
    requires Ascending(posted, Earlier) && HistoryRead(posted, from, messages)
    ensures Sort(messages, Earlier) == posted[from..] && Ascending(posted[from..], Earlier)
  {
    EarlierIsStrict();
    SortAscending(messages, Earlier);
    SortSame(messages, Earlier);
    AscendingUnique(Sort(messages, Earlier), posted[from..], Earlier);
  }

  lemma HeaderAtMost(ordered: seq<Message>, i: nat)
    requires Ascending(ordered, Earlier) && i < |ordered| && IsHeader(ordered[i]) && HasAll(Assembled(ordered))
    ensures ordered[i].at <= LatestReport(Assembled(ordered))
  {
    hide ReportMarker, Joined, Chunks, LatestReport;
    var reports := Assembled(ordered);
    var marker := ReportMarker(ordered[i].text).value;
    var h := LastHeader(ordered, |ordered|, marker);
    assert marker in reports && reports[marker].at == ordered[h.value].at;
    assert h.value > i ==> Earlier(ordered[i], ordered[h.value]);
  }

  lemma LatestHeader(ordered: seq<Message>, reports: map<string, Report>) returns (h: nat)
    requires Ascending(ordered, Earlier) && reports == Assembled(ordered) && HasAll(reports)
    ensures h < |ordered| && ordered[h].at == LatestReport(reports) && IsHeader(ordered[h])
    ensures forall i :: h < i < |ordered| ==> !IsHeader(ordered[i])
  {
    hide ReportMarker, Joined, Chunks, LatestReport;
    var marker :| marker in REQUIRED_MARKERS && marker in reports && reports[marker].at == LatestReport(reports);
    h := LastHeader(ordered, |ordered|, marker).value;
    forall i | h < i < |ordered| ensures !IsHeader(ordered[i]) {
      assert Earlier(ordered[h], ordered[i]);
      if IsHeader(ordered[i]) {
        HeaderAtMost(ordered, i);
      }
    }
  }

  // ---------------------------------------------------------------- two runs that build again

  /** A channel of three headers within the run window, one of each report. */
  predicate ThreeReports(posted: seq<Message>) {
    && |posted| == 3
    && posted[0].at < posted[1].at < posted[2].at <= posted[0].at + RUN_WINDOW
    && ReportMarker(posted[0].text) == Some(WEB_REPORT_MARKER)
    && ReportMarker(posted[1].text) == Some(MOBILE_REPORT_MARKER)
    && ReportMarker(posted[2].text) == Some(SUBSCRIPTIONS_REPORT_MARKER)
  }

  /** The header of a rerun of the last report, at any later time within the window. */
  predicate Rerun(posted: seq<Message>, m: Message)
    requires ThreeReports(posted)
  {
    posted[2].at < m.at <= posted[0].at + RUN_WINDOW && ReportMarker(m.text) == Some(SUBSCRIPTIONS_REPORT_MARKER)
  }

  lemma SortedAlready(posted: seq<Message>)
    requires Ascending(posted, Earlier)
    ensures Sort(posted, Earlier) == posted && HistoryRead(posted, 0, posted)
  {
    EarlierIsStrict();
    SortAscending(posted, Earlier);
    SortSame(posted, Earlier);
    AscendingUnique(Sort(posted, Earlier), posted, Earlier);
    assert posted[0..] == posted;
    forall i, j | 0 <= i < j < |posted| ensures posted[i].at != posted[j].at {
      assert Earlier(posted[i], posted[j]);
    }
  }

  /** With the last headers at these positions the channel holds a run that ends with the last one. */
  lemma EndsAt(posted: seq<Message>, web: nat, mobile: nat, subscriptions: nat)
    requires Ascending(posted, Earlier) && web < mobile < subscriptions < |posted|
    requires LastHeader(posted, |posted|, WEB_REPORT_MARKER) == Some(web)
    requires LastHeader(posted, |posted|, MOBILE_REPORT_MARKER) == Some(mobile)
    requires LastHeader(posted, |posted|, SUBSCRIPTIONS_REPORT_MARKER) == Some(subscriptions)
    requires posted[subscriptions].at - posted[web].at <= RUN_WINDOW
    ensures RunEnd(posted) == Some(posted[subscriptions].at) && HistoryRead(posted, 0, posted)
  {
    hide ReportMarker, Joined, Chunks, LastHeader, HistoryRead, Sort;
    SortedAlready(posted);
    assert REQUIRED_MARKERS[0] == WEB_REPORT_MARKER && REQUIRED_MARKERS[1] == MOBILE_REPORT_MARKER;
    assert REQUIRED_MARKERS[2] == SUBSCRIPTIONS_REPORT_MARKER;
    assert Earlier(posted[web], posted[mobile]) && Earlier(posted[mobile], posted[subscriptions]);
    var reports := Assembled(posted);
    assert reports[WEB_REPORT_MARKER].at == posted[web].at && reports[MOBILE_REPORT_MARKER].at == posted[mobile].at;
    assert reports[SUBSCRIPTIONS_REPORT_MARKER].at == posted[subscriptions].at;
    OneRunOf(reports);
  }

  lemma OneRunOf(reports: map<string, Report>)
    requires HasAll(reports)
    requires var web, mobile, subscriptions :=
               reports[WEB_REPORT_MARKER].at, reports[MOBILE_REPORT_MARKER].at, reports[SUBSCRIPTIONS_REPORT_MARKER].at;
             web < mobile < subscriptions && subscriptions - web <= RUN_WINDOW
    ensures OneRun(reports) && LatestReport(reports) == reports[SUBSCRIPTIONS_REPORT_MARKER].at
  {
    assert forall marker :: marker in REQUIRED_MARKERS ==>
      marker == WEB_REPORT_MARKER || marker == MOBILE_REPORT_MARKER || marker == SUBSCRIPTIONS_REPORT_MARKER;
  }

  lemma IsLast(ordered: seq<Message>, marker: string, h: nat)
    requires h < |ordered| && ReportMarker(ordered[h].text) == Some(marker)
    requires forall i :: h < i < |ordered| ==> ReportMarker(ordered[i].text) != Some(marker)
    ensures LastHeader(ordered, |ordered|, marker) == Some(h)
  {
    hide ReportMarker;
  }

  lemma FirstRun(posted: seq<Message>)
    requires ThreeReports(posted)
    ensures var t := posted[2].at;
            CanStart(None, posted) && HeaderAt(posted, t) && RunEnd(posted) == Some(t) && HistoryRead(posted, 0, posted)
  {
    MarkersDiffer();
    IsLast(posted, WEB_REPORT_MARKER, 0);
    IsLast(posted, MOBILE_REPORT_MARKER, 1);
    IsLast(posted, SUBSCRIPTIONS_REPORT_MARKER, 2);
    EndsAt(posted, 0, 1, 2);
  }

  lemma SecondRun(posted: seq<Message>, m: Message)
    requires ThreeReports(posted) && Rerun(posted, m)
    ensures var later := posted + [m];
            && HeaderAt(later, m.at) && HeaderAt(later, posted[2].at)
            && RunEnd(later) == Some(m.at) && HistoryRead(later, 0, later)
  {
    MarkersDiffer();
    var later := posted + [m];
    assert later[3] == m && forall i :: 0 <= i < 3 ==> later[i] == posted[i];
    IsLast(later, WEB_REPORT_MARKER, 0);
    IsLast(later, MOBILE_REPORT_MARKER, 1);
    IsLast(later, SUBSCRIPTIONS_REPORT_MARKER, 3);
    EndsAt(later, 0, 1, 3);
    assert IsHeader(later[3]) && IsHeader(later[2]);
  }

  lemma MarkersDiffer()
    ensures WEB_REPORT_MARKER != MOBILE_REPORT_MARKER && MOBILE_REPORT_MARKER != SUBSCRIPTIONS_REPORT_MARKER
    ensures SUBSCRIPTIONS_REPORT_MARKER != WEB_REPORT_MARKER
  {
    assert |WEB_REPORT_MARKER| == 38 && |MOBILE_REPORT_MARKER| == 51 && |SUBSCRIPTIONS_REPORT_MARKER| == 45;
  }

  lemma Prepend(w: World, e: Event, next: World, events: seq<Event>, last: World) returns (longer: seq<Event>)
    requires Enabled(w, e) && Step(w, e) == next && CanRun(next, events) && Run(next, events) == last
    ensures longer == [e] + events && CanRun(w, longer) && Run(w, longer) == last
  {
    longer := [e] + events;
    assert longer[1..] == events;
  }

  lemma NothingLeft(w: World)
    ensures CanRun(w, []) && Run(w, []) == w
  {
  }

  /** The state file remembers one run: the rebuild of the first run is slow and records after
      the newer one, which is then built a second time. */
  lemma SlowRebuildForgets(posted: seq<Message>, m: Message) returns (events: seq<Event>)
    requires ThreeReports(posted) && Rerun(posted, m)
    ensures CanStart(None, posted) && CanRun(Start(None, posted), events)
    ensures var t, u := posted[2].at, m.at; t < u && Run(Start(None, posted), events).recorded == [u, t, u]
  {
    FirstRun(posted);
    SecondRun(posted, m);
    RerunIsLater(posted, m);
    hide *;
    var t, u := posted[2].at, m.at;
    var last := World(posted + [m], {t, u}, Some(u), [Task(t, Built), Task(u, Done), Task(u, Built)], [u, t, u]);
    events := NewerOvertakes(posted + [m], t, u, last);
    events := SlowStart(posted, m, t, events, last);
  }

  lemma SlowStart(posted: seq<Message>, m: Message, t: Stamp, rest: seq<Event>, last: World) returns (events: seq<Event>)
    requires HeaderAt(posted, t) && RunEnd(posted) == Some(t) && HistoryRead(posted, 0, posted)
    requires posted != [] && posted[|posted| - 1].at < m.at
    requires var w := World(posted + [m], {t}, None, [Task(t, Building)], []); CanRun(w, rest) && Run(w, rest) == last
    ensures CanRun(Start(None, posted), events) && Run(Start(None, posted), events) == last
  {
    hide CanRun, Run, RunEnd, HeaderAt, HistoryRead;
    var w0 := Start(None, posted);
    var w1 := World(posted, {t}, None, [Task(t, Settling)], []);
    var w2 := World(posted, {t}, None, [Task(t, Complete)], []);
    var w3 := World(posted, {t}, None, [Task(t, Building)], []);
    var w4 := World(posted + [m], {t}, None, [Task(t, Building)], []);
    events := Prepend(w3, Post(m), w4, rest, last);
    events := Prepend(w2, Check(0), w3, events, last);
    events := Prepend(w1, Collect(0, posted, 0), w2, events, last);
    events := Prepend(w0, Deliver(t), w1, events, last);
  }

  lemma RerunIsLater(posted: seq<Message>, m: Message)
    requires ThreeReports(posted) && Rerun(posted, m)
    ensures posted != [] && posted[|posted| - 1].at < m.at && posted[2].at < m.at
  {
  }

  lemma NewerOvertakes(later: seq<Message>, t: Stamp, u: Stamp, last: World) returns (events: seq<Event>)
    requires t < u
    requires HeaderAt(later, u) && RunEnd(later) == Some(u) && HistoryRead(later, 0, later)
    requires last == World(later, {t, u}, Some(u), [Task(t, Built), Task(u, Done), Task(u, Built)], [u, t, u])
    ensures var w := World(later, {t}, None, [Task(t, Building)], []); CanRun(w, events) && Run(w, events) == last
  {
    hide CanRun, Run, RunEnd, HeaderAt, HistoryRead;
    var w4 := World(later, {t}, None, [Task(t, Building)], []);
    var w5 := World(later, {t, u}, None, [Task(t, Building), Task(u, Settling)], []);
    var w6 := World(later, {t, u}, None, [Task(t, Building), Task(u, Complete)], []);
    var w7 := World(later, {t, u}, None, [Task(t, Building), Task(u, Building)], []);
    var w8 := World(later, {t, u}, Some(u), [Task(t, Building), Task(u, Built)], [u]);
    var w9 := World(later, {t}, Some(u), [Task(t, Building), Task(u, Done)], [u]);
    events := OlderRecordsLate(later, t, u, last);
    events := Prepend(w8, End(1), w9, events, last);
    events := Prepend(w7, Record(1), w8, events, last);
    events := Prepend(w6, Check(1), w7, events, last);
    events := Prepend(w5, Collect(1, later, 0), w6, events, last);
    events := Prepend(w4, Deliver(u), w5, events, last);
  }

  lemma OlderRecordsLate(later: seq<Message>, t: Stamp, u: Stamp, last: World) returns (events: seq<Event>)
    requires t < u
    requires HeaderAt(later, u) && RunEnd(later) == Some(u) && HistoryRead(later, 0, later)
    requires last == World(later, {t, u}, Some(u), [Task(t, Built), Task(u, Done), Task(u, Built)], [u, t, u])
    ensures var w := World(later, {t}, Some(u), [Task(t, Building), Task(u, Done)], [u]); CanRun(w, events) && Run(w, events) == last
  {
    hide CanRun, Run, RunEnd, HeaderAt, HistoryRead;
    var w9 := World(later, {t}, Some(u), [Task(t, Building), Task(u, Done)], [u]);
    var wa := World(later, {t}, Some(t), [Task(t, Built), Task(u, Done)], [u, t]);
    var wb := World(later, {t, u}, Some(t), [Task(t, Built), Task(u, Done), Task(u, Settling)], [u, t]);
    var wc := World(later, {t, u}, Some(t), [Task(t, Built), Task(u, Done), Task(u, Complete)], [u, t]);
    var wd := World(later, {t, u}, Some(t), [Task(t, Built), Task(u, Done), Task(u, Building)], [u, t]);
    NothingLeft(last);
    events := Prepend(wd, Record(2), last, [], last);
    events := Prepend(wc, Check(2), wd, events, last);
    events := Prepend(wb, Collect(2, later, 0), wc, events, last);
    events := Prepend(wa, Deliver(u), wb, events, last);
    events := Prepend(w9, Record(0), wa, events, last);
  }

  /** A newer run does it as well, if it is posted and recorded between the collection and the check of
      a repeated delivery: the first run is about to be built again with no older run in sight. */
  lemma NewerRunForgets(posted: seq<Message>, m: Message) returns (events: seq<Event>)
    requires ThreeReports(posted) && Rerun(posted, m)
    ensures CanStart(None, posted) && CanRun(Start(None, posted), events)
    ensures var t, u := posted[2].at, m.at;
            var w := Run(Start(None, posted), events);
            && t < u && |w.tasks| == 3 && w.tasks[1] == Task(t, Complete) && w.recorded == [t, u] && !OlderSince(w.recorded, t)
            && Step(w, Check(1)).tasks[1].stage.Building?
  {
    FirstRun(posted);
    SecondRun(posted, m);
    RerunIsLater(posted, m);
    hide *;
    var t, u := posted[2].at, m.at;
    var last := World(posted + [m], {t, u}, Some(u), [Task(t, Done), Task(t, Complete), Task(u, Built)], [t, u]);
    CheckOfOvertaken(last, t, u);
    events := NewerRecords(posted + [m], t, u, last);
    events := RepeatedDelivery(posted, m, t, events, last);
    events := FirstBuild(posted, t, events, last);
  }

  lemma CheckOfOvertaken(w: World, t: Stamp, u: Stamp)
    requires t < u
    requires w == World(w.posted, {t, u}, Some(u), [Task(t, Done), Task(t, Complete), Task(u, Built)], [t, u])
    ensures |w.tasks| == 3 && w.tasks[1] == Task(t, Complete) && w.recorded == [t, u] && !OlderSince(w.recorded, t)
    ensures Step(w, Check(1)).tasks[1].stage.Building?
  {
    assert w.recorded[1] == u;
  }

  lemma RepeatedDelivery(posted: seq<Message>, m: Message, t: Stamp, rest: seq<Event>, last: World) returns (events: seq<Event>)
    requires HeaderAt(posted, t) && RunEnd(posted) == Some(t) && HistoryRead(posted, 0, posted)
    requires posted != [] && posted[|posted| - 1].at < m.at
    requires var w := World(posted + [m], {t}, Some(t), [Task(t, Done), Task(t, Complete)], [t]); CanRun(w, rest) && Run(w, rest) == last
    ensures var w := World(posted, {t}, Some(t), [Task(t, Built)], [t]); CanRun(w, events) && Run(w, events) == last
  {
    hide CanRun, Run, RunEnd, HeaderAt, HistoryRead;
    var w5 := World(posted, {t}, Some(t), [Task(t, Built)], [t]);
    var w6 := World(posted, {}, Some(t), [Task(t, Done)], [t]);
    var w7 := World(posted, {t}, Some(t), [Task(t, Done), Task(t, Settling)], [t]);
    var w8 := World(posted, {t}, Some(t), [Task(t, Done), Task(t, Complete)], [t]);
    var w9 := World(posted + [m], {t}, Some(t), [Task(t, Done), Task(t, Complete)], [t]);
    events := Prepend(w8, Post(m), w9, rest, last);
    events := Prepend(w7, Collect(1, posted, 0), w8, events, last);
    events := Prepend(w6, Deliver(t), w7, events, last);
    events := Prepend(w5, End(0), w6, events, last);
  }

  lemma FirstBuild(posted: seq<Message>, t: Stamp, rest: seq<Event>, last: World) returns (events: seq<Event>)
    requires HeaderAt(posted, t) && RunEnd(posted) == Some(t) && HistoryRead(posted, 0, posted)
    requires var w := World(posted, {t}, Some(t), [Task(t, Built)], [t]); CanRun(w, rest) && Run(w, rest) == last
    ensures CanRun(Start(None, posted), events) && Run(Start(None, posted), events) == last
  {
    hide CanRun, Run, RunEnd, HeaderAt, HistoryRead;
    var w0 := Start(None, posted);
    var w1 := World(posted, {t}, None, [Task(t, Settling)], []);
    var w2 := World(posted, {t}, None, [Task(t, Complete)], []);
    var w3 := World(posted, {t}, None, [Task(t, Building)], []);
    var w5 := World(posted, {t}, Some(t), [Task(t, Built)], [t]);
    events := Prepend(w3, Record(0), w5, rest, last);
    events := Prepend(w2, Check(0), w3, events, last);
    events := Prepend(w1, Collect(0, posted, 0), w2, events, last);
    events := Prepend(w0, Deliver(t), w1, events, last);
  }

  lemma NewerRecords(later: seq<Message>, t: Stamp, u: Stamp, last: World) returns (events: seq<Event>)
    requires t < u
    requires HeaderAt(later, u) && RunEnd(later) == Some(u) && HistoryRead(later, 0, later)
    requires last == World(later, {t, u}, Some(u), [Task(t, Done), Task(t, Complete), Task(u, Built)], [t, u])
    ensures var w := World(later, {t}, Some(t), [Task(t, Done), Task(t, Complete)], [t]); CanRun(w, events) && Run(w, events) == last
  {
    hide CanRun, Run, RunEnd, HeaderAt, HistoryRead;
    var w9 := World(later, {t}, Some(t), [Task(t, Done), Task(t, Complete)], [t]);
    var wa := World(later, {t, u}, Some(t), [Task(t, Done), Task(t, Complete), Task(u, Settling)], [t]);
    var wb := World(later, {t, u}, Some(t), [Task(t, Done), Task(t, Complete), Task(u, Complete)], [t]);
    var wc := World(later, {t, u}, Some(t), [Task(t, Done), Task(t, Complete), Task(u, Building)], [t]);
    NothingLeft(last);
    events := Prepend(wc, Record(2), last, [], last);
    events := Prepend(wb, Check(2), wc, events, last);
    events := Prepend(wa, Collect(2, later, 0), wb, events, last);
    events := Prepend(w9, Deliver(u), wa, events, last);
  }
}
