/** `ExperimentConfigResponder.review_and_publish`: one review per experiment, joined while it runs
    and reused for a day once it succeeded. Steps interleave at every await. */
module SingleFlight {
  import opened Wrappers

  const COMPLETED_REUSE_SECONDS: int := 24 * 60 * 60

  datatype Outcome = Success(published: bool) | Failure | Cancelled

  /** `Ended`: the task is done, its callback has not run yet. `Over`: it has, at that time. */
  datatype Stage = Running | Ended(outcome: Outcome) | Over(outcome: Outcome, at: int)

  datatype Review = Review(experiment: int, launched: int, stage: Stage)

  /** A submission is answered at once from the record or waits for a review. */
  datatype Submission = Reused(experiment: int, at: int, published: bool) | Joined(experiment: int, review: nat)

  datatype Record = Record(at: int, published: bool)

  datatype World = World(now: int, inFlight: map<int, nat>, completed: map<int, Record>, reviews: seq<Review>,
                         submissions: seq<Submission>)

  datatype Event =
    | Tick(seconds: nat)
    | Submit(experiment: int)
    | End(review: nat, outcome: Outcome)
    | Callback(review: nat)

  predicate Enabled(w: World, e: Event) {
    match e
    case Tick(_) => true
    case Submit(_) => true
    case End(r, _) => r < |w.reviews| && w.reviews[r].stage.Running?
    case Callback(r) => r < |w.reviews| && w.reviews[r].stage.Ended?
  }

  predicate Reusable(w: World, experiment: int) {
    experiment in w.completed && w.now - w.completed[experiment].at < COMPLETED_REUSE_SECONDS
  }

  function Submitted(w: World, experiment: int): World {
    if Reusable(w, experiment) then
      w.(submissions := w.submissions + [Reused(experiment, w.now, w.completed[experiment].published)])
    else if experiment in w.inFlight then
      w.(submissions := w.submissions + [Joined(experiment, w.inFlight[experiment])])
    else
      w.(inFlight := w.inFlight[experiment := |w.reviews|],
         reviews := w.reviews + [Review(experiment, w.now, Running)],
         submissions := w.submissions + [Joined(experiment, |w.reviews|)])
  }

  function CalledBack(w: World, r: nat): World
    requires Enabled(w, Callback(r))
  {
    var review := w.reviews[r];
    w.(inFlight := if review.experiment in w.inFlight && w.inFlight[review.experiment] == r
                   then w.inFlight - {review.experiment} else w.inFlight,
       completed := if review.stage.outcome.Success?
                    then w.completed[review.experiment := Record(w.now, review.stage.outcome.published)] else w.completed,
       reviews := w.reviews[r := review.(stage := Over(review.stage.outcome, w.now))])
  }

  function Step(w: World, e: Event): World
    requires Enabled(w, e)
  {
    match e
    case Tick(d) => w.(now := w.now + d)
    case Submit(experiment) => Submitted(w, experiment)
    case End(r, o) => w.(reviews := w.reviews[r := w.reviews[r].(stage := Ended(o))])
    case Callback(r) => CalledBack(w, r)
  }

  class ExperimentConfigResponder {
    var now: int
    var inFlight: map<int, nat>
    var completed: map<int, Record>
    var reviews: seq<Review>
    ghost var submissions: seq<Submission>

    constructor (start: int)
      ensures State() == Fresh(start)
    {
      now, inFlight, completed, reviews, submissions := start, map[], map[], [], [];
    }

    ghost function State(): World
      reads this
    {
      World(now, inFlight, completed, reviews, submissions)
    }

    /** `review_and_publish` up to the shielded await. */
    method ReviewAndPublish(experiment: int) returns (answer: Submission)
      modifies this
      ensures State() == Step(old(State()), Submit(experiment))
      ensures submissions == old(submissions) + [answer]
    {
      if experiment in completed && now - completed[experiment].at < COMPLETED_REUSE_SECONDS {
        answer := Reused(experiment, now, completed[experiment].published);
        submissions := submissions + [answer];
        return;
      }
      if experiment !in inFlight {
        inFlight := inFlight[experiment := |reviews|];
        reviews := reviews + [Review(experiment, now, Running)];
      }
      answer := Joined(experiment, inFlight[experiment]);
      submissions := submissions + [answer];
    }

    /** `_finish_in_flight`. */
    method FinishInFlight(r: nat)
      requires Enabled(State(), Callback(r))
      modifies this
      ensures State() == Step(old(State()), Callback(r))
    {
      var review := reviews[r];
      if review.experiment in inFlight && inFlight[review.experiment] == r {
        inFlight := inFlight - {review.experiment};
      }
      if review.stage.outcome.Success? {
        completed := completed[review.experiment := Record(now, review.stage.outcome.published)];
      }
      reviews := reviews[r := review.(stage := Over(review.stage.outcome, now))];
    }
  }

  function Fresh(start: int): World {
    World(start, map[], map[], [], [])
  }

  predicate CanRun(w: World, events: seq<Event>)
    decreases |events|
  {
    events != [] ==> Enabled(w, events[0]) && CanRun(Step(w, events[0]), events[1..])
  }

  function Run(w: World, events: seq<Event>): World
    requires CanRun(w, events)
    decreases |events|
  {
    if events == [] then w else Run(Step(w, events[0]), events[1..])
  }

  // ---------------------------------------------------------------- what every run keeps

  /** The dictionary holds exactly the reviews whose callback has not run. */
  predicate Registered(w: World) {
    && (forall r :: 0 <= r < |w.reviews| && !w.reviews[r].stage.Over? ==>
          w.reviews[r].experiment in w.inFlight && w.inFlight[w.reviews[r].experiment] == r)
    && (forall x :: x in w.inFlight ==>
          w.inFlight[x] < |w.reviews| && w.reviews[w.inFlight[x]].experiment == x && !w.reviews[w.inFlight[x]].stage.Over?)
  }

  /** The record is a success, and no success of the experiment was recorded later. */
  predicate Latest(w: World) {
    && (forall r :: 0 <= r < |w.reviews| && w.reviews[r].stage.Over? ==> w.reviews[r].stage.at <= w.now)
    && (forall r :: 0 <= r < |w.reviews| && w.reviews[r].stage.Over? && w.reviews[r].stage.outcome.Success? ==>
          w.reviews[r].experiment in w.completed && w.reviews[r].stage.at <= w.completed[w.reviews[r].experiment].at)
    && (forall x :: x in w.completed ==> Recorded(w, x, w.completed[x]))
  }

  predicate Recorded(w: World, experiment: int, record: Record) {
    exists r :: 0 <= r < |w.reviews| && w.reviews[r].experiment == experiment
                && w.reviews[r].stage == Over(Success(record.published), record.at)
  }

  /** Of two launches for one experiment, the first is over, and failed, was cancelled, or had its
      success recorded a day before the second. */
  predicate Spaced(w: World) {
    forall i, j | 0 <= i < j < |w.reviews| && w.reviews[i].experiment == w.reviews[j].experiment ::
      w.reviews[i].stage.Over?
      && (w.reviews[i].stage.outcome.Success? ==> w.reviews[j].launched - w.reviews[i].stage.at >= COMPLETED_REUSE_SECONDS)
  }

  /** Every answer comes from a review of the experiment; a reused one from a success recorded less
      than a day before. */
  predicate Answered(w: World, s: Submission) {
    match s
    case Joined(x, r) => r < |w.reviews| && w.reviews[r].experiment == x
    case Reused(x, at, published) => exists t: int :: Recorded(w, x, Record(t, published)) && 0 <= at - t < COMPLETED_REUSE_SECONDS
  }

  predicate AllAnswered(w: World) {
    forall k :: 0 <= k < |w.submissions| ==> Answered(w, w.submissions[k])
  }

  lemma StepRegistered(w: World, e: Event)
    requires Registered(w) && Enabled(w, e)
    ensures Registered(Step(w, e))
  {
    var u := Step(w, e);
    assert forall r :: 0 <= r < |w.reviews| ==> u.reviews[r].experiment == w.reviews[r].experiment;
  }

  lemma StillRecorded(w: World, e: Event, experiment: int, record: Record)
    requires Enabled(w, e) && Recorded(w, experiment, record)
    ensures Recorded(Step(w, e), experiment, record)
  {
    var r :| 0 <= r < |w.reviews| && w.reviews[r].experiment == experiment
             && w.reviews[r].stage == Over(Success(record.published), record.at);
    assert Step(w, e).reviews[r] == w.reviews[r];
  }

  lemma StepLatest(w: World, e: Event)
    requires Latest(w) && Enabled(w, e)
    ensures Latest(Step(w, e))
  {
    var u := Step(w, e);
    forall x | x in u.completed ensures Recorded(u, x, u.completed[x]) {
      if x in w.completed && u.completed[x] == w.completed[x] {
        StillRecorded(w, e, x, w.completed[x]);
      } else {
        assert u.reviews[e.review].experiment == x;
      }
    }
    hide Recorded;
  }

  lemma SubmitSpaced(w: World, experiment: int)
    requires Registered(w) && Latest(w) && Spaced(w)
    ensures Spaced(Submitted(w, experiment))
  {
    hide Recorded;
    var u := Submitted(w, experiment);
    forall i, j | 0 <= i < j < |u.reviews| && u.reviews[i].experiment == u.reviews[j].experiment
      ensures u.reviews[i].stage.Over?
      ensures u.reviews[i].stage.outcome.Success? ==> u.reviews[j].launched - u.reviews[i].stage.at >= COMPLETED_REUSE_SECONDS
    {
      assert u.reviews[i] == w.reviews[i];
    }
  }

  lemma StepSpaced(w: World, e: Event)
    requires Registered(w) && Latest(w) && Spaced(w) && Enabled(w, e)
    ensures Spaced(Step(w, e))
  {
    if e.Submit? {
      SubmitSpaced(w, e.experiment);
    }
  }

  lemma StepAnswered(w: World, e: Event)
    requires Registered(w) && Latest(w) && AllAnswered(w) && Enabled(w, e)
    ensures AllAnswered(Step(w, e))
  {
    var u := Step(w, e);
    forall k | 0 <= k < |u.submissions| ensures Answered(u, u.submissions[k]) {
      if k < |w.submissions| {
        AnswerStays(w, e, w.submissions[k]);
      } else {
        NewAnswer(w, e.experiment);
      }
    }
  }

  lemma AnswerStays(w: World, e: Event, s: Submission)
    requires Enabled(w, e) && Answered(w, s)
    ensures Answered(Step(w, e), s)
  {
    if s.Reused? {
      var t :| Recorded(w, s.experiment, Record(t, s.published)) && 0 <= s.at - t < COMPLETED_REUSE_SECONDS;
      StillRecorded(w, e, s.experiment, Record(t, s.published));
    }
  }

  lemma NewAnswer(w: World, experiment: int)
    requires Registered(w) && Latest(w)
    ensures var u := Submitted(w, experiment); Answered(u, u.submissions[|w.submissions|])
  {
    var u := Submitted(w, experiment);
    if Reusable(w, experiment) {
      var record := w.completed[experiment];
      StillRecorded(w, Submit(experiment), experiment, record);
      assert record == Record(record.at, record.published);
      var r :| 0 <= r < |w.reviews| && w.reviews[r].experiment == experiment
               && w.reviews[r].stage == Over(Success(record.published), record.at);
      assert record.at <= w.now;
    }
  }

  lemma {:induction false} RunKeeps(w: World, events: seq<Event>)
    requires Registered(w) && Latest(w) && Spaced(w) && AllAnswered(w) && CanRun(w, events)
    ensures var u := Run(w, events); Registered(u) && Latest(u) && Spaced(u) && AllAnswered(u)
    decreases |events|
  {
    if events != [] {
      StepRegistered(w, events[0]);
      StepLatest(w, events[0]);
      StepSpaced(w, events[0]);
      StepAnswered(w, events[0]);
      hide Registered, Latest, Spaced, AllAnswered, Step, Enabled;
      RunKeeps(Step(w, events[0]), events[1..]);
    }
  }

  /** In every run of the responder at most one review of an experiment is under way, and it is the
      one that further submissions join. */
  lemma ServiceSingle(start: int, events: seq<Event>)
    requires CanRun(Fresh(start), events)
    ensures var u := Run(Fresh(start), events);
            && (forall i, j :: 0 <= i < j < |u.reviews| && u.reviews[i].experiment == u.reviews[j].experiment ==> u.reviews[i].stage.Over?)
            && (forall r :: 0 <= r < |u.reviews| && !u.reviews[r].stage.Over? ==>
                  u.reviews[r].experiment in u.inFlight && u.inFlight[u.reviews[r].experiment] == r)
            && Spaced(u)
  {
    RunKeeps(Fresh(start), events);
  }

  // ---------------------------------------------------------------- the answer to one submission

  /** A success of the experiment was recorded less than a day before. */
  predicate RecentSuccess(w: World, experiment: int, published: bool) {
    exists t: int :: Recorded(w, experiment, Record(t, published)) && 0 <= w.now - t < COMPLETED_REUSE_SECONDS
  }

  /** What a submission that comes in `w` has to be answered with: a recent success if there is one; else
      the review that is then registered and not over, which is the one registered before, if any. */
  predicate AnsweredIn(w: World, experiment: int, s: Submission) {
    match s
    case Reused(x, at, published) => x == experiment && at == w.now && RecentSuccess(w, experiment, published)
    case Joined(x, r) =>
      var u := Submitted(w, experiment);
      && x == experiment && (forall published :: !RecentSuccess(w, experiment, published))
      && experiment in u.inFlight && u.inFlight[experiment] == r
      && r < |u.reviews| && u.reviews[r].experiment == experiment && !u.reviews[r].stage.Over?
      && (if experiment in w.inFlight then r == w.inFlight[experiment] && u.reviews == w.reviews
          else r == |w.reviews| && u.reviews == w.reviews + [Review(experiment, w.now, Running)])
  }

  lemma NoneRecent(w: World, experiment: int, published: bool)
    requires Latest(w) && RecentSuccess(w, experiment, published)
    ensures Reusable(w, experiment)
  {
    var t :| Recorded(w, experiment, Record(t, published)) && 0 <= w.now - t < COMPLETED_REUSE_SECONDS;
    var r :| 0 <= r < |w.reviews| && w.reviews[r].experiment == experiment && w.reviews[r].stage == Over(Success(published), t);
  }

  lemma SubmitAnswers(w: World, experiment: int)
    requires Registered(w) && Latest(w)
    ensures var u := Submitted(w, experiment);
            |u.submissions| == |w.submissions| + 1 && AnsweredIn(w, experiment, u.submissions[|w.submissions|])
  {
    if Reusable(w, experiment) {
      var record := w.completed[experiment];
      assert Recorded(w, experiment, record) && record == Record(record.at, record.published);
      assert record.at <= w.now;
    } else {
      forall published ensures !RecentSuccess(w, experiment, published) {
        if RecentSuccess(w, experiment, published) {
          NoneRecent(w, experiment, published);
        }
      }
      hide RecentSuccess, Latest;
      StepRegistered(w, Submit(experiment));
    }
  }

  lemma {:induction false} RunSplit(w: World, events: seq<Event>, i: nat)
    requires CanRun(w, events) && i <= |events|
    ensures CanRun(w, events[..i])
    ensures var u := Run(w, events[..i]); CanRun(u, events[i..]) && Run(u, events[i..]) == Run(w, events)
    decreases |events|
  {
    hide Step, Enabled;
    if i == 0 {
      assert events[..0] == [] && events[0..] == events;
    } else {
      RunSplit(Step(w, events[0]), events[1..], i - 1);
      assert events[..i][1..] == events[1..][..i - 1] && events[1..][i - 1..] == events[i..];
    }
  }

  lemma {:induction false} SubmissionsStay(w: World, events: seq<Event>)
    requires CanRun(w, events)
    ensures w.submissions <= Run(w, events).submissions
    decreases |events|
  {
    if events != [] {
      assert w.submissions <= Step(w, events[0]).submissions;
      hide Step, Enabled;
      SubmissionsStay(Step(w, events[0]), events[1..]);
    }
  }

  /** Every submission in every run is answered by a review of its own experiment, and as the moment it
      came in demands; the answer stays. */
  lemma ServiceAnswers(start: int, events: seq<Event>, i: nat)
    requires CanRun(Fresh(start), events) && i < |events| && events[i].Submit?
    ensures CanRun(Fresh(start), events[..i])
    ensures var w, u := Run(Fresh(start), events[..i]), Run(Fresh(start), events);
            |w.submissions| < |u.submissions| && AnsweredIn(w, events[i].experiment, u.submissions[|w.submissions|])
    ensures AllAnswered(Run(Fresh(start), events))
  {
    RunKeeps(Fresh(start), events);
    RunSplit(Fresh(start), events, i);
    RunKeeps(Fresh(start), events[..i]);
    hide CanRun, Run, AllAnswered, Registered, Latest, Spaced, AnsweredIn;
    var w := Run(Fresh(start), events[..i]);
    SubmitAnswers(w, events[i].experiment);
    SubmitFirst(w, events[i..]);
    SubmissionsStay(Submitted(w, events[i].experiment), events[i..][1..]);
  }

  lemma SubmitFirst(w: World, events: seq<Event>)
    requires CanRun(w, events) && events != [] && events[0].Submit?
    ensures var u := Submitted(w, events[0].experiment); CanRun(u, events[1..]) && Run(w, events) == Run(u, events[1..])
  {
    assert Step(w, events[0]) == Submitted(w, events[0].experiment);
    hide Submitted;
  }

  function OutcomeOf(stage: Stage): Option<Outcome> {
    match stage
    case Running => None
    case Ended(o) => Some(o)
    case Over(o, _) => Some(o)
  }

  /** All joiners of a review see one outcome: once it has ended it does not change. */
  lemma {:induction false} OutcomeIsFinal(w: World, events: seq<Event>, r: nat)
    requires CanRun(w, events) && r < |w.reviews| && OutcomeOf(w.reviews[r].stage).Some?
    ensures r < |Run(w, events).reviews| && OutcomeOf(Run(w, events).reviews[r].stage) == OutcomeOf(w.reviews[r].stage)
    decreases |events|
  {
    if events != [] {
      assert OutcomeOf(Step(w, events[0]).reviews[r].stage) == OutcomeOf(w.reviews[r].stage);
      hide Step, Enabled;
      OutcomeIsFinal(Step(w, events[0]), events[1..], r);
    }
  }

  // ---------------------------------------------------------------- a success and the day after it

  /** A review is launched, succeeds after a while and is recorded; later its experiment is submitted again. */
  function Revisit(experiment: int, takes: nat, published: bool, later: nat): seq<Event> {
    [Submit(experiment), Tick(takes), End(0, Success(published)), Callback(0), Tick(later), Submit(experiment)]
  }

  /** The second submission is answered from the record within a day of the success, and after that by a new
      review. */
  lemma ReusedForADay(start: int, experiment: int, takes: nat, published: bool, later: nat)
    ensures CanRun(Fresh(start), Revisit(experiment, takes, published, later))
    ensures var u := Run(Fresh(start), Revisit(experiment, takes, published, later));
            && u.now == start + takes + later
            && u.reviews != [] && u.reviews[0] == Review(experiment, start, Over(Success(published), start + takes))
            && if later < 24 * 60 * 60
               then |u.reviews| == 1 && u.submissions == [Joined(experiment, 0), Reused(experiment, u.now, published)]
               else |u.reviews| == 2 && u.reviews[1] == Review(experiment, u.now, Running)
                    && u.submissions == [Joined(experiment, 0), Joined(experiment, 1)]
  {
    var events := Revisit(experiment, takes, published, later);
    var w0 := Fresh(start);
    var w1 := World(start, map[experiment := 0], map[], [Review(experiment, start, Running)], [Joined(experiment, 0)]);
    var w2 := w1.(now := start + takes);
    var w3 := w2.(reviews := [Review(experiment, start, Ended(Success(published)))]);
    var w4 := World(start + takes, map[], map[experiment := Record(start + takes, published)],
                    [Review(experiment, start, Over(Success(published), start + takes))], [Joined(experiment, 0)]);
    var w5 := w4.(now := start + takes + later);
    assert Step(w0, events[0]) == w1;
    assert Step(w1, events[1]) == w2;
    assert Step(w2, events[2]) == w3;
    assert Step(w3, events[3]) == w4;
    assert Step(w4, events[4]) == w5;
    assert Enabled(w2, events[2]) && Enabled(w3, events[3]);
    RunSix(w0, w1, w2, w3, w4, w5, events);
  }

  lemma RunSix(w0: World, w1: World, w2: World, w3: World, w4: World, w5: World, events: seq<Event>)
    requires |events| == 6
    requires Enabled(w0, events[0]) && Step(w0, events[0]) == w1
    requires Enabled(w1, events[1]) && Step(w1, events[1]) == w2
    requires Enabled(w2, events[2]) && Step(w2, events[2]) == w3
    requires Enabled(w3, events[3]) && Step(w3, events[3]) == w4
    requires Enabled(w4, events[4]) && Step(w4, events[4]) == w5
    requires Enabled(w5, events[5])
    ensures CanRun(w0, events) && Run(w0, events) == Step(w5, events[5])
  {
    hide Step, Enabled;
    RunOne(w5, events, 5);
    RunOne(w4, events, 4);
    RunOne(w3, events, 3);
    RunOne(w2, events, 2);
    RunOne(w1, events, 1);
    RunOne(w0, events, 0);
    assert events[6..] == [] && events[0..] == events;
  }

  /** One event of a list, and the rest. */
  lemma RunOne(w: World, events: seq<Event>, i: nat)
    requires i < |events| && Enabled(w, events[i])
    ensures CanRun(w, events[i..]) <==> CanRun(Step(w, events[i]), events[i + 1..])
    ensures CanRun(w, events[i..]) ==> Run(w, events[i..]) == Run(Step(w, events[i]), events[i + 1..])
  {
    hide Step, Enabled;
    assert events[i..][0] == events[i] && events[i..][1..] == events[i + 1..];
  }
}
