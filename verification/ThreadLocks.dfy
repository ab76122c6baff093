/** The per-thread locks of `AgentOrchestrator._process`: one dictionary entry per Slack thread,
    fetched before an await and removed by whoever finishes last. */
module ThreadLocks {

  type Key = string
  type LockId = nat

  /** Where a turn's task stands.
      `Fetched`: it has its lock from the dictionary and awaits a store call outside the `try`.
      `Waiting`, `Holding`: in front of and inside `async with lock`.
      `Leaving`: behind it, in the cleanup. */
  datatype Stage =
    | Created
    | Fetched(lock: LockId)
    | Waiting(lock: LockId)
    | Holding(lock: LockId)
    | Leaving(lock: LockId)
    | Gone

  datatype Task = Task(key: Key, stage: Stage)

  /** The dictionary and the tasks in order of submission; lock objects are numbered. */
  datatype World = World(entries: map<Key, LockId>, nextLock: LockId, tasks: seq<Task>)

  datatype Event =
    | Submit(key: Key)
    | Fetch(task: nat)    // `self._locks.setdefault(key, asyncio.Lock())`
    | Queue(task: nat)    // the store call is over, the task asks for the lock
    | Enter(task: nat)
    | Leave(task: nat)    // the turn is over: result, error or cancellation
    | GiveUp(task: nat)   // cancelled while waiting for the lock
    | Abandon(task: nat)  // cancelled before the `try` or amid the awaits of the cleanup: no entry is removed
    | Finish(task: nat)   // the end of the cleanup: pop the entry if the own lock is free

  predicate HasLock(stage: Stage) {
    stage.Fetched? || stage.Waiting? || stage.Holding? || stage.Leaving?
  }

  /** The task may still be inside its turn, now or later, with the lock it has. */
  predicate Interested(stage: Stage) {
    stage.Fetched? || stage.Waiting? || stage.Holding?
  }

  predicate LockFree(w: World, lock: LockId) {
    forall i :: 0 <= i < |w.tasks| ==> w.tasks[i].stage != Holding(lock)
  }

  predicate Enabled(w: World, e: Event) {
    e.Submit? ||
    (e.task < |w.tasks| &&
     var stage := w.tasks[e.task].stage;
     match e
     case Fetch(_) => stage.Created?
     case Queue(_) => stage.Fetched?
     case Enter(_) => stage.Waiting? && LockFree(w, stage.lock)
     case Leave(_) => stage.Holding?
     case GiveUp(_) => stage.Waiting?
     case Abandon(_) => stage.Created? || stage.Fetched? || stage.Leaving?
     case Finish(_) => stage.Leaving?
     case _ => false)
  }

  function Moved(w: World, task: nat, stage: Stage): World
    requires task < |w.tasks|
  {
    w.(tasks := w.tasks[task := w.tasks[task].(stage := stage)])
  }

  function Step(w: World, e: Event): World
    requires Enabled(w, e)
  {
    match e
    case Submit(key) => w.(tasks := w.tasks + [Task(key, Created)])
    case Fetch(i) =>
      var key := w.tasks[i].key;
      if key in w.entries then Moved(w, i, Fetched(w.entries[key]))
      else Moved(w, i, Fetched(w.nextLock)).(entries := w.entries[key := w.nextLock], nextLock := w.nextLock + 1)
    case Queue(i) => Moved(w, i, Waiting(w.tasks[i].stage.lock))
    case Enter(i) => Moved(w, i, Holding(w.tasks[i].stage.lock))
    case Leave(i) => Moved(w, i, Leaving(w.tasks[i].stage.lock))
    case GiveUp(i) => Moved(w, i, Leaving(w.tasks[i].stage.lock))
    case Abandon(i) => Moved(w, i, Gone)
    case Finish(i) =>
      // whatever entry the key has now goes, be it the task's own lock or not
      if LockFree(w, w.tasks[i].stage.lock) then Moved(w, i, Gone).(entries := w.entries - {w.tasks[i].key})
      else Moved(w, i, Gone)
  }

  class AgentOrchestrator {
    var entries: map<Key, LockId>
    var nextLock: LockId
    var tasks: seq<Task>

    constructor ()
      ensures State() == World(map[], 0, [])
    {
      entries, nextLock, tasks := map[], 0, [];
    }

    ghost function State(): World
      reads this
    {
      World(entries, nextLock, tasks)
    }

    method Create(key: Key) returns (task: nat)
      modifies this
      ensures State() == Step(old(State()), Submit(key)) && task == |old(tasks)|
    {
      task := |tasks|;
      tasks := tasks + [Task(key, Created)];
    }

    method SetDefault(task: nat)
      requires Enabled(State(), Fetch(task))
      modifies this
      ensures State() == Step(old(State()), Fetch(task))
    {
      var key := tasks[task].key;
      if key !in entries {
        entries := entries[key := nextLock];
        nextLock := nextLock + 1;
      }
      tasks := tasks[task := Task(key, Fetched(entries[key]))];
    }

    method Locked(lock: LockId) returns (locked: bool)
      ensures locked <==> !LockFree(State(), lock)
    {
      locked := exists i :: 0 <= i < |tasks| && tasks[i].stage == Holding(lock);
    }

    method CleanUp(task: nat)
      requires Enabled(State(), Finish(task))
      modifies this
      ensures State() == Step(old(State()), Finish(task))
    {
      var locked := Locked(tasks[task].stage.lock);
      if !locked {
        entries := entries - {tasks[task].key};
      }
      tasks := tasks[task := tasks[task].(stage := Gone)];
    }
  }

  predicate CanRun(w: World, events: seq<Event>)
    decreases |events|
  {
    events != [] ==> Enabled(w, events[0]) && CanRun(Step(w, events[0]), events[1..])
  }

  function Run(w: World, events: seq<Event>): World
    requires CanRun(w, events)
    decreases |events|
  {
    if events == [] then w else Run(Step(w, events[0]), events[1..])
  }

  // ---------------------------------------------------------------- what always holds

  /** Lock objects are never shared between threads, and a lock has one holder. */
  predicate Sane(w: World) {
    && (forall key :: key in w.entries ==> w.entries[key] < w.nextLock)
    && (forall i :: 0 <= i < |w.tasks| && HasLock(w.tasks[i].stage) ==> w.tasks[i].stage.lock < w.nextLock)
    && (forall a, b :: a in w.entries && b in w.entries && w.entries[a] == w.entries[b] ==> a == b)
    && (forall i, key | 0 <= i < |w.tasks| && key in w.entries && HasLock(w.tasks[i].stage) ::
          w.tasks[i].stage.lock == w.entries[key] ==> w.tasks[i].key == key)
    && (forall i, j | 0 <= i < |w.tasks| && 0 <= j < |w.tasks| && HasLock(w.tasks[i].stage) && HasLock(w.tasks[j].stage) ::
          w.tasks[i].stage.lock == w.tasks[j].stage.lock ==> w.tasks[i].key == w.tasks[j].key)
    && (forall i, j :: 0 <= i < j < |w.tasks| && w.tasks[i].stage.Holding? && w.tasks[j].stage.Holding? ==>
          w.tasks[i].stage.lock != w.tasks[j].stage.lock)
  }

  lemma SubmitSane(w: World, key: Key)
    requires Sane(w)
    ensures Sane(w.(tasks := w.tasks + [Task(key, Created)]))
  {
  }

  lemma FetchSane(w: World, i: nat)
    requires Sane(w) && Enabled(w, Fetch(i))
    ensures Sane(Step(w, Fetch(i)))
  {
    var u := Step(w, Fetch(i));
    assert forall j :: 0 <= j < |w.tasks| && j != i ==> u.tasks[j] == w.tasks[j];
  }

  /** Moving on with the same lock. */
  lemma MoveSane(w: World, i: nat, stage: Stage)
    requires Sane(w) && i < |w.tasks| && HasLock(w.tasks[i].stage) && HasLock(stage)
    requires stage.lock == w.tasks[i].stage.lock
    requires stage.Holding? ==> LockFree(w, stage.lock)
    ensures Sane(Moved(w, i, stage))
  {
    var u := Moved(w, i, stage);
    assert forall j :: 0 <= j < |w.tasks| && j != i ==> u.tasks[j] == w.tasks[j];
  }

  lemma DropSane(w: World, i: nat)
    requires Sane(w) && i < |w.tasks|
    ensures Sane(Moved(w, i, Gone))
  {
    var u := Moved(w, i, Gone);
    assert forall j :: 0 <= j < |w.tasks| && j != i ==> u.tasks[j] == w.tasks[j];
  }

  lemma PopSane(w: World, key: Key)
    requires Sane(w)
    ensures Sane(w.(entries := w.entries - {key}))
  {
  }

  lemma StepSane(w: World, e: Event)
    requires Sane(w) && Enabled(w, e)
    ensures Sane(Step(w, e))
  {
    hide Sane, LockFree;
    match e
    case Submit(key) => SubmitSane(w, key);
    case Fetch(i) => FetchSane(w, i);
    case Abandon(i) => DropSane(w, i);
    case Finish(i) =>
      DropSane(w, i);
      PopSane(Moved(w, i, Gone), w.tasks[i].key);
    case Queue(i) => MoveSane(w, i, Waiting(w.tasks[i].stage.lock));
    case Enter(i) => MoveSane(w, i, Holding(w.tasks[i].stage.lock));
    case Leave(i) => MoveSane(w, i, Leaving(w.tasks[i].stage.lock));
    case GiveUp(i) => MoveSane(w, i, Leaving(w.tasks[i].stage.lock));
  }

  /** Every task that is or may still get inside refers to the lock the dictionary has now. */
  predicate Coherent(w: World) {
    forall i :: 0 <= i < |w.tasks| && Interested(w.tasks[i].stage) ==>
      w.tasks[i].key in w.entries && w.entries[w.tasks[i].key] == w.tasks[i].stage.lock
  }

  /** No two tasks of a thread are inside their turns at once. */
  predicate Exclusive(w: World) {
    forall i, j :: 0 <= i < j < |w.tasks| && w.tasks[i].key == w.tasks[j].key ==>
      !(w.tasks[i].stage.Holding? && w.tasks[j].stage.Holding?)
  }

  lemma CoherentIsExclusive(w: World)
    requires Sane(w) && Coherent(w)
    ensures Exclusive(w)
  {
  }

  /** The step takes the entry away under a task that still relies on it. */
  predicate Unclean(w: World, e: Event)
    requires Enabled(w, e)
  {
    && e.Finish?
    && LockFree(w, w.tasks[e.task].stage.lock)
    && exists j :: 0 <= j < |w.tasks| && w.tasks[j].key == w.tasks[e.task].key && Interested(w.tasks[j].stage)
  }

  /** A step of one task that neither removes an entry nor gives the task a foreign lock. */
  lemma QuietStepCoherent(w: World, e: Event)
    requires Sane(w) && Coherent(w) && Enabled(w, e) && !e.Finish?
    ensures Coherent(Step(w, e))
  {
  }

  lemma FinishCoherentIff(w: World, i: nat)
    requires Coherent(w) && Enabled(w, Finish(i))
    ensures Coherent(Step(w, Finish(i))) <==> !Unclean(w, Finish(i))
  {
    var u := Step(w, Finish(i));
    if Unclean(w, Finish(i)) {
      var j :| 0 <= j < |w.tasks| && w.tasks[j].key == w.tasks[i].key && Interested(w.tasks[j].stage);
      assert u.tasks[j] == w.tasks[j];
    }
  }

  /** Exactly such a step breaks coherence. */
  lemma CoherentStepIff(w: World, e: Event)
    requires Sane(w) && Coherent(w) && Enabled(w, e)
    ensures Coherent(Step(w, e)) <==> !Unclean(w, e)
  {
    if e.Finish? {
      FinishCoherentIff(w, e.task);
    } else {
      QuietStepCoherent(w, e);
    }
  }

  /** The rule the cleanup would have to follow: remove an entry only when every other task of the
      thread is gone. It makes the removal clean. */
  lemma AloneIsClean(w: World, e: Event)
    requires Enabled(w, e)
    requires e.Finish? && LockFree(w, w.tasks[e.task].stage.lock) ==>
               forall j :: 0 <= j < |w.tasks| && j != e.task && w.tasks[j].key == w.tasks[e.task].key ==> w.tasks[j].stage.Gone?
    ensures !Unclean(w, e)
  {
  }

  /** No removal in the run is unclean. */
  predicate AllClean(w: World, events: seq<Event>)
    requires CanRun(w, events)
    decreases |events|
  {
    events != [] ==> !Unclean(w, events[0]) && AllClean(Step(w, events[0]), events[1..])
  }

  /** In every run whose removals are clean, all tasks of a thread that are or may get inside share
      one lock object, so at most one is inside. */
  lemma {:induction false} CleanRunsExclude(w: World, events: seq<Event>)
    requires Sane(w) && Coherent(w) && CanRun(w, events) && AllClean(w, events)
    ensures var u := Run(w, events); Sane(u) && Coherent(u) && Exclusive(u)
    decreases |events|
  {
    if events == [] {
      CoherentIsExclusive(w);
    } else {
      StepSane(w, events[0]);
      CoherentStepIff(w, events[0]);
      hide Sane, Coherent, Exclusive, Enabled, Step, Unclean;
      CleanRunsExclude(Step(w, events[0]), events[1..]);
    }
  }

  // ---------------------------------------------------------------- and what goes wrong otherwise

  lemma RunCons(w: World, e: Event, rest: seq<Event>)
    requires Enabled(w, e) && CanRun(Step(w, e), rest)
    ensures CanRun(w, [e] + rest) && Run(w, [e] + rest) == Run(Step(w, e), rest)
    ensures !Unclean(w, e) && AllClean(Step(w, e), rest) ==> AllClean(w, [e] + rest)
  {
    assert ([e] + rest)[1..] == rest;
  }

  /** A task that holds a lock the dictionary no longer has for its thread: a newly submitted task
      gets another lock and walks in. */
  lemma SecondWalksIn(w: World, t: nat) returns (events: seq<Event>)
    requires Sane(w) && t < |w.tasks| && w.tasks[t].stage.Holding?
    requires w.tasks[t].key in w.entries ==> w.entries[w.tasks[t].key] != w.tasks[t].stage.lock
    ensures CanRun(w, events) && AllClean(w, events) && !Exclusive(Run(w, events))
  {
    var key, n := w.tasks[t].key, |w.tasks|;
    if j :| 0 <= j < n && j != t && w.tasks[j].key == key && w.tasks[j].stage.Holding? {
      events := [];
      assert !Exclusive(w);
    } else {
      var a := Step(w, Submit(key));
      assert a.tasks[n] == Task(key, Created) && forall i :: 0 <= i < n ==> a.tasks[i] == w.tasks[i];
      var b := Step(a, Fetch(n));
      var c := Step(b, Queue(n));
      assert forall i :: 0 <= i < n ==> c.tasks[i] == w.tasks[i];
      assert LockFree(c, c.tasks[n].stage.lock);
      var d := Step(c, Enter(n));
      assert d.tasks[t].stage.Holding? && d.tasks[n].stage.Holding? && d.tasks[t].key == d.tasks[n].key;
      assert !Exclusive(d);
      events := [];
      RunCons(c, Enter(n), events);
      events := [Enter(n)] + events;
      RunCons(b, Queue(n), events);
      events := [Queue(n)] + events;
      RunCons(a, Fetch(n), events);
      events := [Fetch(n)] + events;
      RunCons(w, Submit(key), events);
      events := [Submit(key)] + events;
    }
  }

  /** From any incoherent state some continuation, without any further removal, lets two tasks of
      one thread run at once. */
  lemma IncoherentBreaks(w: World) returns (events: seq<Event>)
    requires Sane(w) && !Coherent(w)
    ensures CanRun(w, events) && AllClean(w, events) && !Exclusive(Run(w, events))
  {
    var i :| 0 <= i < |w.tasks| && Interested(w.tasks[i].stage)
             && !(w.tasks[i].key in w.entries && w.entries[w.tasks[i].key] == w.tasks[i].stage.lock);
    var lock := w.tasks[i].stage.lock;
    if t :| 0 <= t < |w.tasks| && w.tasks[t].stage == Holding(lock) {
      events := SecondWalksIn(w, t);
    } else if w.tasks[i].stage.Waiting? {
      events := EntersFirst(w, i);
    } else {
      var u := Step(w, Queue(i));
      StepSane(w, Queue(i));
      events := EntersFirst(u, i);
      RunCons(w, Queue(i), events);
      events := [Queue(i)] + events;
    }
  }

  lemma EntersFirst(w: World, i: nat) returns (events: seq<Event>)
    requires Sane(w) && i < |w.tasks| && w.tasks[i].stage.Waiting? && LockFree(w, w.tasks[i].stage.lock)
    requires w.tasks[i].key in w.entries ==> w.entries[w.tasks[i].key] != w.tasks[i].stage.lock
    ensures CanRun(w, events) && AllClean(w, events) && !Exclusive(Run(w, events))
  {
    var u := Step(w, Enter(i));
    StepSane(w, Enter(i));
    events := SecondWalksIn(u, i);
    RunCons(w, Enter(i), events);
    events := [Enter(i)] + events;
  }

  /** Exclusion is safe from a state on, as long as removals stay clean, exactly when the state is
      coherent. With `CoherentStepIff`: the first unclean removal of a run is what gives it away. */
  lemma ExclusionIff(w: World)
    requires Sane(w)
    ensures (forall events :: CanRun(w, events) && AllClean(w, events) ==> Exclusive(Run(w, events))) <==> Coherent(w)
  {
    if Coherent(w) {
      forall events | CanRun(w, events) && AllClean(w, events) ensures Exclusive(Run(w, events)) {
        CleanRunsExclude(w, events);
      }
    } else {
      var events := IncoherentBreaks(w);
      assert CanRun(w, events) && AllClean(w, events) && !Exclusive(Run(w, events));
    }
  }

  const EMPTY := World(map[], 0, [])

  /** Every run of the service, from its start, that never removes an entry under another task. */
  lemma ServiceExcludes(events: seq<Event>)
    requires CanRun(EMPTY, events) && AllClean(EMPTY, events)
    ensures Exclusive(Run(EMPTY, events)) && Coherent(Run(EMPTY, events))
  {
    CleanRunsExclude(EMPTY, events);
  }

  /** The first task finishes while the second, which has fetched the same lock, still awaits the
      store: the entry goes and the state is incoherent. */
  lemma RemovalUnderFetched(key: Key) returns (events: seq<Event>)
    ensures var w := World(map[key := 0], 1, [Task(key, Leaving(0)), Task(key, Fetched(0))]);
            CanRun(w, events) && !Exclusive(Run(w, events))
  {
    hide CanRun, AllClean, Exclusive, Run;
    var w7 := World(map[key := 0], 1, [Task(key, Leaving(0)), Task(key, Fetched(0))]);
    var w8 := World(map[], 1, [Task(key, Gone), Task(key, Fetched(0))]);
    assert Step(w7, Finish(0)) == w8 by {
      assert LockFree(w7, 0);
      assert map[key := 0] - {key} == map[];
    }
    assert !Coherent(w8) by {
      assert Interested(w8.tasks[1].stage);
    }
    events := IncoherentBreaks(w8);
    events := Prepend(w7, Finish(0), w8, events);
  }

  /** The cleanup as it stands does break exclusion, from the service's start. */
  lemma ServiceCanBreakExclusion(key: Key) returns (events: seq<Event>)
    ensures CanRun(EMPTY, events) && !Exclusive(Run(EMPTY, events))
  {
    hide CanRun, AllClean, Exclusive, Run, Sane, Coherent;
    var w1 := World(map[], 0, [Task(key, Created)]);
    var w2 := World(map[], 0, [Task(key, Created), Task(key, Created)]);
    var w3 := World(map[key := 0], 1, [Task(key, Fetched(0)), Task(key, Created)]);
    var w4 := World(map[key := 0], 1, [Task(key, Fetched(0)), Task(key, Fetched(0))]);
    var w5 := World(map[key := 0], 1, [Task(key, Waiting(0)), Task(key, Fetched(0))]);
    var w6 := World(map[key := 0], 1, [Task(key, Holding(0)), Task(key, Fetched(0))]);
    var w7 := World(map[key := 0], 1, [Task(key, Leaving(0)), Task(key, Fetched(0))]);
    events := RemovalUnderFetched(key);
    events := Prepend(w6, Leave(0), w7, events);
    assert LockFree(w5, 0);
    events := Prepend(w5, Enter(0), w6, events);
    events := Prepend(w4, Queue(0), w5, events);
    events := Prepend(w3, Fetch(1), w4, events);
    events := Prepend(w2, Fetch(0), w3, events);
    events := Prepend(w1, Submit(key), w2, events);
    events := Prepend(EMPTY, Submit(key), w1, events);
  }

  lemma Prepend(w: World, e: Event, next: World, events: seq<Event>) returns (longer: seq<Event>)
    requires Enabled(w, e) && Step(w, e) == next
    requires CanRun(next, events) && !Exclusive(Run(next, events))
    ensures longer == [e] + events && CanRun(w, longer) && !Exclusive(Run(w, longer))
  {
    hide Exclusive, Step, Enabled;
    longer := [e] + events;
    RunCons(w, e, events);
  }
}
