/** Request correlation of the Codex App Server client: `_request` and `_read_stdout`, interleaved at
    every await. */
module RpcClient {
  import opened Wrappers

  datatype Body = Value(value: string) | NoResult | Error(detail: string)

  /** A JSON object read from the server: its integer id, if any, whether it names a method, and what
      it carries. */
  datatype Message = Message(id: Option<int>, names: bool, body: Body)

  /** The future of one request. `Given` up: cancelled by the timeout or with its caller. */
  datatype Future = Open | Replied(message: Message) | Closed | Given

  datatype Outcome =
    | Returned(value: string)
    | Refused(detail: string)
    | Empty
    | OutputClosed
    | GaveUp
    | WriteFailed

  /** `Writing`: registered, the line may not be out yet. */
  datatype Stage = Writing | Awaiting | Finished(outcome: Outcome)

  /** `since` counts the messages read before the request was registered. */
  datatype Call = Call(id: int, stage: Stage, future: Future, since: nat)

  /** `pending` maps request ids to positions in `calls`; `received` is all that was read so far. */
  datatype World = World(requestId: int, pending: map<int, nat>, calls: seq<Call>, reading: bool,
                         received: seq<Message>, notifications: seq<Message>)

  datatype Event =
    | Begin
    | Written(call: nat)
    | WriteError(call: nat)      // the write raised or its caller was cancelled
    | Receive(message: Message)
    | CloseOutput
    | Resume(call: nat)          // the awaited future is done
    | GiveUp(call: nat)          // timeout or cancellation, before the caller resumes

  predicate Enabled(w: World, e: Event) {
    match e
    case Begin => true
    case Written(k) => k < |w.calls| && w.calls[k].stage.Writing?
    case WriteError(k) => k < |w.calls| && w.calls[k].stage.Writing?
    case Receive(_) => w.reading
    case CloseOutput => w.reading
    case Resume(k) => k < |w.calls| && w.calls[k].stage.Awaiting? && !w.calls[k].future.Open? && !w.calls[k].future.Given?
    case GiveUp(k) => k < |w.calls| && w.calls[k].stage.Awaiting?
  }

  function OutcomeOf(future: Future): Outcome {
    match future
    case Replied(m) => (match m.body
                        case Value(v) => Returned(v)
                        case NoResult => Empty
                        case Error(d) => Refused(d))
    case Closed => OutputClosed
    case _ => GaveUp
  }

  /** A future that is done already stays as it is, and its caller does not see it. */
  function GivenUp(c: Call): Call {
    c.(stage := Finished(GaveUp), future := if c.future.Open? then Given else c.future)
  }

  function Finish(w: World, k: nat, c: Call): World
    requires k < |w.calls|
  {
    w.(calls := w.calls[k := c], pending := w.pending - {c.id})
  }

  /** The futures still registered and open fail; the entries stay for their callers to remove. */
  function AllClosed(calls: seq<Call>, registered: set<nat>): (r: seq<Call>)
    ensures |r| == |calls|
  {
    seq(|calls|, k requires 0 <= k < |calls| =>
      if k in registered && calls[k].future.Open? then calls[k].(future := Closed) else calls[k])
  }

  function Step(w: World, e: Event): World
    requires Enabled(w, e)
  {
    match e
    case Begin =>
      var id := w.requestId + 1;
      w.(requestId := id, pending := w.pending[id := |w.calls|],
         calls := w.calls + [Call(id, Writing, Open, |w.received|)])
    case Written(k) => w.(calls := w.calls[k := w.calls[k].(stage := Awaiting)])
    case WriteError(k) => w.(calls := w.calls[k := w.calls[k].(stage := Finished(WriteFailed))])
    case Receive(m) =>
      var v := w.(received := w.received + [m]);
      if m.id.Some? && m.id.value in w.pending then
        var k := w.pending[m.id.value];
        if k < |w.calls| && w.calls[k].future.Open? then v.(calls := w.calls[k := w.calls[k].(future := Replied(m))]) else v
      else if m.names then v.(notifications := w.notifications + [m])
      else v
    case CloseOutput => w.(reading := false, calls := AllClosed(w.calls, w.pending.Values))
    case Resume(k) => Finish(w, k, w.calls[k].(stage := Finished(OutcomeOf(w.calls[k].future))))
    case GiveUp(k) => Finish(w, k, GivenUp(w.calls[k]))
  }

  const EMPTY := World(0, map[], [], true, [], [])

  // ---------------------------------------------------------------- the client

  class CodexAppServer {
    var requestId: int
    var pending: map<int, nat>
    var calls: seq<Call>
    var reading: bool
    var received: seq<Message>
    var notifications: seq<Message>

    constructor ()
      ensures State() == EMPTY
    {
      requestId, pending, calls, reading, received, notifications := 0, map[], [], true, [], [];
    }

    ghost function State(): World
      reads this
    {
      World(requestId, pending, calls, reading, received, notifications)
    }

    /** The start of `_request`, up to the write. */
    method Register() returns (call: nat)
      modifies this
      ensures State() == Step(old(State()), Begin) && call == |old(calls)|
    {
      requestId := requestId + 1;
      call := |calls|;
      calls := calls + [Call(requestId, Writing, Open, |received|)];
      pending := pending[requestId := call];
    }

    /** One message of the reader's loop. */
    method Dispatch(message: Message)
      requires Enabled(State(), Receive(message))
      modifies this
      ensures State() == Step(old(State()), Receive(message))
    {
      received := received + [message];
      if message.id.Some? && message.id.value in pending {
        var call := pending[message.id.value];
        if call < |calls| && calls[call].future.Open? {
          calls := calls[call := calls[call].(future := Replied(message))];
        }
      } else if message.names {
        notifications := notifications + [message];
      }
    }

    /** The end of the reader: a loop over the registered futures. */
    method FailOutstanding()
      requires Enabled(State(), CloseOutput)
      modifies this
      ensures State() == Step(old(State()), CloseOutput)
    {
      ghost var before := calls;
      var left := pending.Values;
      while left != {}
        invariant pending == old(pending) && requestId == old(requestId) && reading
        invariant received == old(received) && notifications == old(notifications)
        invariant left <= pending.Values && calls == AllClosed(before, pending.Values - left)
        decreases |left|
      {
        var call :| call in left;
        if call < |calls| && calls[call].future.Open? {
          calls := calls[call := calls[call].(future := Closed)];
        }
        left := left - {call};
      }
      assert pending.Values - {} == pending.Values;
      reading := false;
    }

    /** The end of `_request`: the entry goes, whether the wait is given up or the future is done. */
    method Conclude(call: nat, givingUp: bool) returns (outcome: Outcome)
      requires Enabled(State(), if givingUp then GiveUp(call) else Resume(call))
      modifies this
      ensures State() == Step(old(State()), if givingUp then GiveUp(call) else Resume(call))
      ensures calls[call].stage == Finished(outcome)
    {
      pending := pending - {calls[call].id};
      if givingUp {
        outcome := GaveUp;
        if calls[call].future.Open? {
          calls := calls[call := calls[call].(future := Given)];
        }
      } else {
        outcome := OutcomeOf(calls[call].future);
      }
      calls := calls[call := calls[call].(stage := Finished(outcome))];
    }
  }

  // ---------------------------------------------------------------- what every run keeps

  predicate CanRun(w: World, events: seq<Event>)
    decreases |events|
  {
    events != [] ==> Enabled(w, events[0]) && CanRun(Step(w, events[0]), events[1..])
  }

  function Run(w: World, events: seq<Event>): World
    requires CanRun(w, events)
    decreases |events|
  {
    if events == [] then w else Run(Step(w, events[0]), events[1..])
  }

  /** The entry of the call is in the dictionary: until it ends, and for good after a failed write. */
  predicate Registered(c: Call) {
    !c.stage.Finished? || c.stage.outcome.WriteFailed?
  }

  /** Ids count up from 1 without gaps, and each entry leads to the one call with its id. */
  predicate Indexed(w: World) {
    && w.requestId == |w.calls|
    && (forall k :: 0 <= k < |w.calls| ==> w.calls[k].id == k + 1 && w.calls[k].since <= |w.received|)
    && (forall id :: id in w.pending ==> 1 <= id <= |w.calls| && w.pending[id] == id - 1 && Registered(w.calls[id - 1]))
    && (forall k :: 0 <= k < |w.calls| && Registered(w.calls[k]) ==> k + 1 in w.pending)
  }

  /** Message `j` is the first with the id among those read since the call registered. */
  predicate FirstReply(id: int, since: nat, received: seq<Message>, j: nat) {
    && since <= j < |received| && received[j].id == Some(id)
    && forall i :: since <= i < j ==> received[i].id != Some(id)
  }

  predicate NoReply(id: int, since: nat, received: seq<Message>) {
    forall i :: since <= i < |received| ==> received[i].id != Some(id)
  }

  /** What a call's future and outcome say about the messages read. */
  predicate Correlated(c: Call, received: seq<Message>, reading: bool) {
    && (match c.future
        case Open => Registered(c) && (reading ==> NoReply(c.id, c.since, received))
        case Replied(m) => exists j: nat | j < |received| :: FirstReply(c.id, c.since, received, j) && received[j] == m
        case Closed => !reading && NoReply(c.id, c.since, received)
        case Given => c.stage == Finished(GaveUp))
    && (c.stage.Finished? && !c.stage.outcome.WriteFailed? ==>
          !c.future.Open? && (c.stage.outcome.GaveUp? || c.stage.outcome == OutcomeOf(c.future)))
  }

  predicate AllCorrelated(w: World) {
    forall k :: 0 <= k < |w.calls| ==> Correlated(w.calls[k], w.received, w.reading)
  }

  lemma BeginIndexed(w: World)
    requires Indexed(w)
    ensures Indexed(Step(w, Begin))
  {
    var u := Step(w, Begin);
    assert forall k :: 0 <= k < |w.calls| ==> u.calls[k] == w.calls[k];
  }

  /** The call stays registered, or not, under the same id. */
  lemma UpdateIndexed(w: World, k: nat, c: Call)
    requires Indexed(w) && k < |w.calls| && c.id == w.calls[k].id && c.since == w.calls[k].since
    requires Registered(c) == Registered(w.calls[k])
    ensures Indexed(w.(calls := w.calls[k := c]))
  {
  }

  lemma FinishIndexed(w: World, k: nat, c: Call)
    requires Indexed(w) && k < |w.calls| && c.id == w.calls[k].id && c.since == w.calls[k].since && !Registered(c)
    ensures Indexed(Finish(w, k, c))
  {
  }

  lemma ReceiveIndexed(w: World, m: Message)
    requires Indexed(w) && w.reading
    ensures Indexed(Step(w, Receive(m)))
  {
    var v := w.(received := w.received + [m]);
    assert Indexed(v);
    if m.id.Some? && m.id.value in w.pending {
      var id := m.id.value;
      assert id in w.pending;
      var k := w.pending[id];
      assert k == id - 1 && k < |w.calls|;
      UpdateIndexed(v, k, w.calls[k].(future := Replied(m)));
    }
  }

  lemma SameShape(w: World, calls: seq<Call>)
    requires Indexed(w) && |calls| == |w.calls|
    requires forall k :: 0 <= k < |calls| ==> calls[k].id == w.calls[k].id && calls[k].since == w.calls[k].since
    requires forall k :: 0 <= k < |calls| ==> Registered(calls[k]) == Registered(w.calls[k])
    ensures Indexed(w.(reading := false, calls := calls))
  {
    hide Registered;
  }

  lemma CloseIndexed(w: World)
    requires Indexed(w) && w.reading
    ensures Indexed(Step(w, CloseOutput))
  {
    var calls := AllClosed(w.calls, w.pending.Values);
    forall k | 0 <= k < |calls|
      ensures calls[k].id == w.calls[k].id && calls[k].since == w.calls[k].since && Registered(calls[k]) == Registered(w.calls[k])
    {
    }
    hide Indexed, AllClosed, Registered;
    SameShape(w, calls);
  }

  lemma StepIndexed(w: World, e: Event)
    requires Indexed(w) && Enabled(w, e)
    ensures Indexed(Step(w, e))
  {
    hide Indexed, AllClosed;
    match e
    case Begin => BeginIndexed(w);
    case Written(k) => UpdateIndexed(w, k, w.calls[k].(stage := Awaiting));
    case WriteError(k) => UpdateIndexed(w, k, w.calls[k].(stage := Finished(WriteFailed)));
    case Receive(m) => ReceiveIndexed(w, m);
    case CloseOutput => CloseIndexed(w);
    case Resume(k) => FinishIndexed(w, k, w.calls[k].(stage := Finished(OutcomeOf(w.calls[k].future))));
    case GiveUp(k) => FinishIndexed(w, k, GivenUp(w.calls[k]));
  }

  lemma MoreReceived(c: Call, received: seq<Message>, m: Message, reading: bool)
    requires Correlated(c, received, reading) && c.since <= |received|
    requires c.future.Open? && reading ==> m.id != Some(c.id)
    requires c.future.Closed? ==> m.id != Some(c.id) || !reading
    requires reading
    ensures Correlated(c, received + [m], reading)
  {
    var more := received + [m];
    if c.future.Replied? {
      var j: nat :| j < |received| && FirstReply(c.id, c.since, received, j) && received[j] == c.future.message;
      assert FirstReply(c.id, c.since, more, j) && more[j] == c.future.message;
    }
  }

  lemma Answered(c: Call, received: seq<Message>, m: Message)
    requires Correlated(c, received, true) && c.future.Open? && m.id == Some(c.id) && c.since <= |received|
    ensures Correlated(c.(future := Replied(m)), received + [m], true)
  {
    var more := received + [m];
    assert FirstReply(c.id, c.since, more, |received|) && more[|received|] == m;
  }

  lemma ReceiveCorrelates(w: World, m: Message)
    requires Indexed(w) && AllCorrelated(w) && w.reading
    ensures AllCorrelated(Step(w, Receive(m)))
  {
    var u := Step(w, Receive(m));
    if m.id.Some? && m.id.value in w.pending {
      assert w.pending[m.id.value] == m.id.value - 1;
    }
    forall k | 0 <= k < |w.calls| ensures Correlated(u.calls[k], u.received, u.reading) {
      var c := w.calls[k];
      assert Correlated(c, w.received, w.reading);
      if c.future.Open? && m.id == Some(c.id) {
        assert k + 1 in w.pending && w.pending[k + 1] == k;
        Answered(c, w.received, m);
      } else {
        assert u.calls[k] == c;
        MoreReceived(c, w.received, m, w.reading);
      }
    }
  }

  lemma StepCorrelates(w: World, e: Event)
    requires Indexed(w) && AllCorrelated(w) && Enabled(w, e)
    ensures AllCorrelated(Step(w, e))
  {
    if e.Receive? {
      ReceiveCorrelates(w, e.message);
    } else {
      var u := Step(w, e);
      forall k | 0 <= k < |u.calls| ensures Correlated(u.calls[k], u.received, u.reading) {
        if k < |w.calls| {
          assert Correlated(w.calls[k], w.received, w.reading);
        }
      }
    }
  }

  lemma {:induction false} RunCorrelates(w: World, events: seq<Event>)
    requires Indexed(w) && AllCorrelated(w) && CanRun(w, events)
    ensures Indexed(Run(w, events)) && AllCorrelated(Run(w, events))
    decreases |events|
  {
    if events != [] {
      StepIndexed(w, events[0]);
      StepCorrelates(w, events[0]);
      hide Indexed, AllCorrelated, Step, Enabled;
      RunCorrelates(Step(w, events[0]), events[1..]);
    }
  }

  /** In every run of the client: request ids strictly increase, an entry belongs to exactly one call,
      and the entries left are those of calls under way and of calls whose write failed, no others. */
  lemma ServiceIndexed(events: seq<Event>)
    requires CanRun(EMPTY, events)
    ensures var u := Run(EMPTY, events);
            && (forall i, j :: 0 <= i < j < |u.calls| ==> u.calls[i].id < u.calls[j].id)
            && (forall k :: 0 <= k < |u.calls| ==> (u.calls[k].id in u.pending <==> Registered(u.calls[k])))
            && (forall id :: id in u.pending ==> u.pending[id] < |u.calls| && u.calls[u.pending[id]].id == id)
  {
    RunCorrelates(EMPTY, events);
  }

  /** A call that returns does so with the first message of its own id read since it registered. A
      call told that the output closed had no such message. */
  lemma ServiceCorrelates(events: seq<Event>, k: nat)
    requires CanRun(EMPTY, events) && k < |Run(EMPTY, events).calls| && Run(EMPTY, events).calls[k].stage.Finished?
    ensures var u := Run(EMPTY, events);
            var c := u.calls[k];
            match c.stage.outcome
            case Returned(v) => exists j: nat | j < |u.received| :: FirstReply(c.id, c.since, u.received, j) && u.received[j].body == Value(v)
            case Refused(d) => exists j: nat | j < |u.received| :: FirstReply(c.id, c.since, u.received, j) && u.received[j].body == Error(d)
            case Empty => exists j: nat | j < |u.received| :: FirstReply(c.id, c.since, u.received, j) && u.received[j].body == NoResult
            case OutputClosed => !u.reading && NoReply(c.id, c.since, u.received)
            case _ => true
  {
    RunCorrelates(EMPTY, events);
    var u := Run(EMPTY, events);
    assert Correlated(u.calls[k], u.received, u.reading);
    hide Run, CanRun, Indexed, AllCorrelated, FirstReply, NoReply;
  }

  /** A future is resolved at most once. */
  lemma StepKeepsResolved(w: World, e: Event, k: nat)
    requires Enabled(w, e) && k < |w.calls| && !w.calls[k].future.Open?
    ensures k < |Step(w, e).calls| && Step(w, e).calls[k].future == w.calls[k].future
  {
  }

  lemma {:induction false} ResolvedOnce(w: World, events: seq<Event>, k: nat)
    requires CanRun(w, events) && k < |w.calls| && !w.calls[k].future.Open?
    ensures k < |Run(w, events).calls| && Run(w, events).calls[k].future == w.calls[k].future
    decreases |events|
  {
    if events != [] {
      StepKeepsResolved(w, events[0], k);
      hide Step, Enabled;
      ResolvedOnce(Step(w, events[0]), events[1..], k);
    }
  }

  /** A reply to a call that has ended reaches nobody. Only after a failed write is the entry still
      there, and then it changes a future that nobody awaits. */
  lemma LateReplyIgnored(w: World, m: Message, k: nat)
    requires Indexed(w) && w.reading && k < |w.calls| && m.id == Some(w.calls[k].id) && w.calls[k].stage.Finished?
    ensures Registered(w.calls[k]) || Step(w, Receive(m)).calls == w.calls
    ensures forall i :: 0 <= i < |w.calls| && i != k ==> Step(w, Receive(m)).calls[i] == w.calls[i]
    ensures Step(w, Receive(m)).calls[k].stage == w.calls[k].stage && Step(w, Receive(m)).pending == w.pending
  {
  }

  /** When the output closes, every registered future is resolved. */
  lemma CloseResolvesAll(w: World)
    requires Indexed(w) && AllCorrelated(w) && w.reading
    ensures forall k :: 0 <= k < |w.calls| ==> !Step(w, CloseOutput).calls[k].future.Open?
  {
    forall k | 0 <= k < |w.calls| ensures !Step(w, CloseOutput).calls[k].future.Open? {
      assert Correlated(w.calls[k], w.received, w.reading);
      if w.calls[k].future.Open? {
        assert k + 1 in w.pending && w.pending[k + 1] == k;
        assert k in w.pending.Values;
      }
    }
  }

  /** Nothing serves a request made after that: it can only give up. */
  predicate Unserved(w: World, from: nat) {
    !w.reading && forall k :: from <= k < |w.calls| ==> w.calls[k].future.Open? || w.calls[k].future.Given?
  }

  lemma {:induction false} AfterClose(w: World, events: seq<Event>, from: nat)
    requires Unserved(w, from) && CanRun(w, events)
    ensures Unserved(Run(w, events), from)
    decreases |events|
  {
    if events != [] {
      AfterClose(Step(w, events[0]), events[1..], from);
    }
  }

  // ---------------------------------------------------------------- where a message and a call go

  /** Call `k` is the one that waits under the message's id. */
  predicate Addressed(w: World, m: Message, k: nat) {
    k < |w.calls| && m.id == Some(w.calls[k].id) && Registered(w.calls[k])
  }

  /** A message resolves the future of the call it is addressed to, unless that is done already, and no other.
      One that is addressed to no call is kept as a notification exactly if it names a method. */
  lemma ReceiveRoutes(w: World, m: Message)
    requires Indexed(w) && w.reading
    ensures var u := Step(w, Receive(m));
            && u.received == w.received + [m] && |u.calls| == |w.calls| && u.pending == w.pending
            && (forall k :: 0 <= k < |w.calls| ==>
                  u.calls[k] == if Addressed(w, m, k) && w.calls[k].future.Open? then w.calls[k].(future := Replied(m)) else w.calls[k])
            && u.notifications == if m.names && forall k :: 0 <= k < |w.calls| ==> !Addressed(w, m, k)
                                  then w.notifications + [m] else w.notifications
  {
    if m.id.Some? && m.id.value in w.pending {
      var k := m.id.value - 1;
      assert w.pending[m.id.value] == k && Addressed(w, m, k);
    } else {
      forall k | 0 <= k < |w.calls| ensures !Addressed(w, m, k) {
        assert Registered(w.calls[k]) ==> k + 1 in w.pending;
      }
    }
  }

  /** A call that resumes comes back with what its future holds, and one that gives up with that; either way
      its entry is gone. */
  lemma CallConcludes(w: World, k: nat)
    requires k < |w.calls| && w.calls[k].stage == Awaiting
    ensures match w.calls[k].future
            case Replied(m) =>
              Step(w, Resume(k)).calls[k].stage == Finished(match m.body
                                                           case Value(v) => Returned(v)
                                                           case NoResult => Empty
                                                           case Error(d) => Refused(d))
            case Closed => Step(w, Resume(k)).calls[k].stage == Finished(OutputClosed)
            case _ => !Enabled(w, Resume(k))
    ensures Step(w, GiveUp(k)).calls[k].stage == Finished(GaveUp)
    ensures Enabled(w, Resume(k)) ==> w.calls[k].id !in Step(w, Resume(k)).pending
    ensures w.calls[k].id !in Step(w, GiveUp(k)).pending
  {
  }

  /** From any state with an open output, a request that is written and answered comes back with the answer. */
  lemma RequestAnswered(w: World, names: bool, body: Body)
    requires Indexed(w) && w.reading
    ensures var k, m := |w.calls|, Message(Some(w.requestId + 1), names, body);
            var events := [Begin, Written(k), Receive(m), Resume(k)];
            && CanRun(w, events)
            && var u := Run(w, events);
               && |u.calls| == k + 1 && u.calls[..k] == w.calls && u.pending == w.pending
               && u.calls[k].stage == Finished(match body
                                               case Value(v) => Returned(v)
                                               case NoResult => Empty
                                               case Error(d) => Refused(d))
  {
    var k, m := |w.calls|, Message(Some(w.requestId + 1), names, body);
    var a := Step(w, Begin);
    var b := Step(a, Written(k));
    var c := Step(b, Receive(m));
    var d := Step(c, Resume(k));
    assert w.requestId + 1 !in w.pending;
    assert c.calls[k].future == Replied(m);
    assert d.calls[..k] == w.calls;
    assert d.pending == w.pending;
    assert Enabled(a, Written(k)) && Enabled(b, Receive(m)) && Enabled(c, Resume(k));
    RunFour(w, a, b, c, Begin, Written(k), Receive(m), Resume(k));
  }

  lemma RunFour(w: World, a: World, b: World, c: World, first: Event, second: Event, third: Event, fourth: Event)
    requires Enabled(w, first) && Step(w, first) == a && Enabled(a, second) && Step(a, second) == b
    requires Enabled(b, third) && Step(b, third) == c && Enabled(c, fourth)
    ensures CanRun(w, [first, second, third, fourth]) && Run(w, [first, second, third, fourth]) == Step(c, fourth)
  {
    hide Step, Enabled;
    RunCons(c, fourth, []);
    RunCons(b, third, [fourth]);
    RunCons(a, second, [third, fourth]);
    RunCons(w, first, [second, third, fourth]);
  }

  lemma RunCons(w: World, e: Event, rest: seq<Event>)
    requires Enabled(w, e)
    ensures CanRun(w, [e] + rest) <==> CanRun(Step(w, e), rest)
    ensures CanRun(w, [e] + rest) ==> Run(w, [e] + rest) == Run(Step(w, e), rest)
  {
    hide Step, Enabled;
    assert ([e] + rest)[1..] == rest;
  }

  // ---------------------------------------------------------------- the entry of a failed write

  lemma StepKeepsLeak(w: World, e: Event, k: nat)
    requires Indexed(w) && Enabled(w, e) && k < |w.calls| && w.calls[k].stage == Finished(WriteFailed)
    ensures var u := Step(w, e);
            k < |u.calls| && u.calls[k].stage == Finished(WriteFailed) && u.calls[k].id in u.pending
  {
    StepIndexed(w, e);
    assert k + 1 in w.pending;
  }

  /** Whatever happens afterwards, the entry of a request whose write failed stays in the table. */
  lemma {:induction false} LeakStays(w: World, events: seq<Event>, k: nat)
    requires Indexed(w) && CanRun(w, events) && k < |w.calls| && w.calls[k].stage == Finished(WriteFailed)
    ensures var u := Run(w, events); k < |u.calls| && u.calls[k].stage == Finished(WriteFailed) && u.calls[k].id in u.pending
    decreases |events|
  {
    if events == [] {
      assert k + 1 in w.pending;
    } else {
      StepIndexed(w, events[0]);
      StepKeepsLeak(w, events[0], k);
      hide Indexed, Step, Enabled;
      LeakStays(Step(w, events[0]), events[1..], k);
    }
  }

  /** Such an entry from the start, and in every continuation. */
  lemma WriteErrorLeaks(later: seq<Event>)
    requires CanRun(Step(Step(EMPTY, Begin), WriteError(0)), later)
    ensures Run(Step(Step(EMPTY, Begin), WriteError(0)), later).pending.Keys >= {1}
  {
    var w := Step(Step(EMPTY, Begin), WriteError(0));
    StepIndexed(EMPTY, Begin);
    StepIndexed(Step(EMPTY, Begin), WriteError(0));
    LeakStays(w, later, 0);
    RunIndexed(w, later);
  }

  lemma {:induction false} RunIndexed(w: World, events: seq<Event>)
    requires Indexed(w) && CanRun(w, events)
    ensures Indexed(Run(w, events))
    decreases |events|
  {
    if events != [] {
      StepIndexed(w, events[0]);
      hide Indexed, Step, Enabled;
      RunIndexed(Step(w, events[0]), events[1..]);
    }
  }
}
