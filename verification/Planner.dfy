/** `select_with_project_page`: repeated selection that leaves out epics whose setup is broken,
    against one pass over the sorted candidates. */
module Planner {
  import opened Wrappers
  import opened Ordering
  import Sequences
  import opened Pairing
  import opened Board
  import opened Selector
  import opened Claim

  /** What the project-page resolver says about an epic. */
  datatype Resolution = Page(id: string) | SetupBroken | Unresolvable

  datatype Failure = NoSnapshot(error: SelectionError) | Repeated(epicKey: string) | Unresolved(candidate: Candidate)

  type Outcome = Result<Option<Candidate>, Failure>

  /** One pass over the candidates, oldest first. The reports are the candidates whose failure is
      published. */
  function Scan(candidates: seq<Candidate>, skipped: set<string>, resolve: string -> Resolution): (Outcome, seq<Candidate>) {
    if candidates == [] then (Ok(None), [])
    else
      var c, rest := candidates[0], candidates[1..];
      if c.epicKey in skipped then Scan(rest, skipped, resolve)
      else if c.projectPage.Some? then (Ok(Some(c)), [])
      else
        match resolve(c.epicKey)
        case Page(id) => (Ok(Some(c.(projectPage := Some(id)))), [])
        case Unresolvable => (Err(Unresolved(c)), [c])
        case SetupBroken =>
          var r := Scan(rest, skipped + {c.epicKey}, resolve);
          (r.0, [c] + r.1)
  }

  function Without(candidates: seq<Candidate>, epics: set<string>): seq<Candidate> {
    if candidates == [] then []
    else (if candidates[0].epicKey in epics then [] else [candidates[0]]) + Without(candidates[1..], epics)
  }

  lemma WithoutCons(c: Candidate, rest: seq<Candidate>, epics: set<string>)
    ensures Without([c] + rest, epics) == (if c.epicKey in epics then [] else [c]) + Without(rest, epics)
    ensures Without([], epics) == []
  {
    assert ([c] + rest)[1..] == rest;
  }

  // ---------------------------------------------------------------- one selection is the head of the rest

  lemma {:induction false} OldestIsHead(candidates: seq<Candidate>)
    requires candidates != []
    ensures |Sort(candidates, Precedes)| == |candidates| && Oldest(candidates) == Some(Sort(candidates, Precedes)[0])
  {
    OldestIndex(candidates);
    SortKeeps(candidates, Precedes);
    assert |multiset(Sort(candidates, Precedes))| == |multiset(candidates)|;
  }

  lemma {:induction false} OldestIndex(candidates: seq<Candidate>)
    requires candidates != []
    ensures Sort(candidates, Precedes) != []
    ensures exists i: nat :: IsOldest(candidates, i) && candidates[i] == Sort(candidates, Precedes)[0]
  {
    var rest := candidates[1..];
    if rest == [] {
      assert IsOldest(candidates, 0);
    } else {
      OldestIndex(rest);
      var i: nat :| IsOldest(rest, i) && rest[i] == Sort(rest, Precedes)[0];
      PrecedesIsStrict();
      assert forall j :: 0 < j < |candidates| ==> candidates[j] == rest[j - 1];
      if Precedes(rest[i], candidates[0]) {
        assert IsOldest(candidates, i + 1);
      } else {
        forall j | 0 < j < |candidates| ensures !Precedes(candidates[j], candidates[0]) {
          assert !Precedes(rest[j - 1], rest[i]);
        }
        assert IsOldest(candidates, 0);
      }
    }
  }

  lemma {:induction false} EligibleWithout(s: Snapshot, query: Query, pairs: seq<Pair>, skipped: set<string>)
    requires query.excluded == {}
    ensures Eligible(s, query.(excluded := skipped), pairs) == Without(Eligible(s, query, pairs), skipped)
  {
    if pairs != [] {
      EligibleWithout(s, query, pairs[1..], skipped);
      hide LastReview, HasOpenEpic, StatusSet, Without;
      var rest := Eligible(s, query, pairs[1..]);
      if Qualifies(s, query, pairs[0]) {
        WithoutCons(CandidateOf(s, pairs[0]), rest, skipped);
      } else {
        assert [] + rest == rest;
      }
    }
  }

  lemma InsertCons(x: Candidate, y: Candidate, rest: seq<Candidate>)
    requires Precedes(y, x)
    ensures Insert(x, [y] + rest, Precedes) == [y] + Insert(x, rest, Precedes)
  {
    assert ([y] + rest)[1..] == rest;
  }

  lemma {:induction false} InsertWithout(x: Candidate, sorted: seq<Candidate>, epics: set<string>)
    requires Sorted(sorted, Precedes)
    ensures Without(Insert(x, sorted, Precedes), epics)
         == if x.epicKey in epics then Without(sorted, epics) else Insert(x, Without(sorted, epics), Precedes)
  {
    if sorted == [] || !Precedes(sorted[0], x) {
      WithoutCons(x, sorted, epics);
      if x.epicKey !in epics {
        forall y | y in sorted ensures !Precedes(y, x) {
          PrecedesIsStrict();
          assert y != sorted[0] ==> !Precedes(y, sorted[0]);
        }
        FirstKept(x, sorted, epics);
      }
    } else {
      InsertWithout(x, sorted[1..], epics);
      InsertPast(x, sorted, epics);
    }
  }

  lemma InsertPast(x: Candidate, sorted: seq<Candidate>, epics: set<string>)
    requires sorted != [] && Precedes(sorted[0], x)
    requires Without(Insert(x, sorted[1..], Precedes), epics)
          == if x.epicKey in epics then Without(sorted[1..], epics) else Insert(x, Without(sorted[1..], epics), Precedes)
    ensures Without(Insert(x, sorted, Precedes), epics)
         == if x.epicKey in epics then Without(sorted, epics) else Insert(x, Without(sorted, epics), Precedes)
  {
    hide Without, Insert, Precedes;
    var y, rest := sorted[0], sorted[1..];
    assert [y] + rest == sorted;
    InsertCons(x, y, rest);
    WithoutCons(y, Insert(x, rest, Precedes), epics);
    WithoutCons(y, rest, epics);
    assert [] + Without(rest, epics) == Without(rest, epics);
    assert [] + Without(Insert(x, rest, Precedes), epics) == Without(Insert(x, rest, Precedes), epics);
    if y.epicKey !in epics && x.epicKey !in epics {
      InsertCons(x, y, Without(rest, epics));
    }
  }

  lemma FirstKept(x: Candidate, sorted: seq<Candidate>, epics: set<string>)
    requires forall y :: y in sorted ==> !Precedes(y, x)
    ensures Insert(x, Without(sorted, epics), Precedes) == [x] + Without(sorted, epics)
  {
    WithoutHas(sorted, epics);
    if Without(sorted, epics) != [] {
      assert Without(sorted, epics)[0] in Without(sorted, epics);
    }
  }

  lemma {:induction false} WithoutHas(candidates: seq<Candidate>, epics: set<string>)
    ensures forall c :: c in Without(candidates, epics) <==> c in candidates && c.epicKey !in epics
  {
    if candidates != [] {
      WithoutHas(candidates[1..], epics);
      assert candidates == [candidates[0]] + candidates[1..];
    }
  }

  lemma {:induction false} SortWithout(candidates: seq<Candidate>, epics: set<string>)
    ensures Sort(Without(candidates, epics), Precedes) == Without(Sort(candidates, Precedes), epics)
  {
    if candidates != [] {
      SortWithout(candidates[1..], epics);
      PrecedesIsStrict();
      SortSorted(candidates[1..], Precedes);
      InsertWithout(candidates[0], Sort(candidates[1..], Precedes), epics);
      SortCons(candidates[0], Without(candidates[1..], epics));
      assert [] + Without(candidates[1..], epics) == Without(candidates[1..], epics);
    }
  }

  lemma SortCons(c: Candidate, rest: seq<Candidate>)
    ensures Sort([c] + rest, Precedes) == Insert(c, Sort(rest, Precedes), Precedes)
  {
    assert ([c] + rest)[1..] == rest;
  }

  /** A selection without the skipped epics is the first candidate left of the sorted list. */
  lemma SelectedIsHead(s: Snapshot, query: Query, skipped: set<string>, all: seq<Candidate>)
    requires query.excluded == {} && all == Eligible(s, query, PairsOf(s, query.title))
    requires Selected(s, query).Ok?
    ensures var left := Without(Sort(all, Precedes), skipped);
            Selected(s, query.(excluded := skipped)) == Ok(if left == [] then None else Some(left[0]))
  {
    EligibleWithout(s, query, PairsOf(s, query.title), skipped);
    SortWithout(all, skipped);
    hide Sort, Eligible, Pairs, Precedes;
    var left := Without(all, skipped);
    if left != [] {
      OldestIsHead(left);
    } else {
      SortNothing();
    }
  }

  lemma SortNothing()
    ensures Sort([], Precedes) == []
  {
  }

  // ---------------------------------------------------------------- the loop is the pass

  /** The pass only looks at the first candidate left, and goes on from there. */
  lemma {:induction false} ScanStep(candidates: seq<Candidate>, skipped: set<string>, resolve: string -> Resolution)
    ensures var left := Without(candidates, skipped);
            Scan(candidates, skipped, resolve) ==
              if left == [] then (Ok(None), [])
              else if left[0].projectPage.Some? then (Ok(Some(left[0])), [])
              else match resolve(left[0].epicKey)
                   case Page(id) => (Ok(Some(left[0].(projectPage := Some(id)))), [])
                   case Unresolvable => (Err(Unresolved(left[0])), [left[0]])
                   case SetupBroken =>
                     var r := Scan(candidates, skipped + {left[0].epicKey}, resolve);
                     (r.0, [left[0]] + r.1)
  {
    if candidates != [] && candidates[0].epicKey in skipped {
      ScanStep(candidates[1..], skipped, resolve);
    }
  }

  lemma {:induction false} WithoutShrinks(candidates: seq<Candidate>, skipped: set<string>, epic: string)
    ensures |Without(candidates, skipped + {epic})| <= |Without(candidates, skipped)|
    ensures (exists c :: c in Without(candidates, skipped) && c.epicKey == epic) ==>
              |Without(candidates, skipped + {epic})| < |Without(candidates, skipped)|
  {
    if candidates != [] {
      WithoutShrinks(candidates[1..], skipped, epic);
      var rest := Without(candidates[1..], skipped);
      if candidates[0].epicKey !in skipped && candidates[0].epicKey != epic {
        assert Without(candidates, skipped) == [candidates[0]] + rest;
        assert forall c :: c in Without(candidates, skipped) <==> c == candidates[0] || c in rest;
      }
    }
  }

  /** The loop terminates, and selecting again and again comes to the same as one pass over the
      candidates from the oldest on. */
  method SelectWithProjectPage(s: Snapshot, query: Query, resolve: string -> Resolution)
    returns (r: Outcome, reports: seq<Candidate>)
    requires query.excluded == {}
    ensures match Selected(s, query)
            case Err(e) => r == Err(NoSnapshot(e)) && reports == []
            case Ok(_) => (r, reports) == Scan(Sort(Eligible(s, query, PairsOf(s, query.title)), Precedes), {}, resolve)
  {
    hide Sort, Eligible, Pairs, Precedes, Scan;
    var skipped: set<string> := {};
    reports := [];
    ghost var all := Eligible(s, query, PairsOf(s, query.title));
    ghost var sorted := Sort(all, Precedes);
    assert query.(excluded := {}) == query;
    while true
      invariant skipped == {} || Selected(s, query).Ok?
      invariant skipped == {} ==> reports == []
      invariant Scan(sorted, {}, resolve).0 == Scan(sorted, skipped, resolve).0
      invariant Scan(sorted, {}, resolve).1 == reports + Scan(sorted, skipped, resolve).1
      decreases |Without(sorted, skipped)|
    {
      var choice := SelectCandidate(s, query.(excluded := skipped));
      if choice.Err? {
        SelectedErrs(s, query, skipped);
        return Err(NoSnapshot(choice.error)), reports;
      }
      SelectedErrs(s, query, skipped);
      assert reports + [] == reports;
      SelectedIsHead(s, query, skipped, all);
      ScanStep(sorted, skipped, resolve);
      if choice.value.None? {
        return Ok(None), reports;
      }
      var selected := choice.value.value;
      HeadKept(sorted, skipped);
      if selected.epicKey in skipped {
        assert false;  // the selector leaves skipped epics out
      }
      if selected.projectPage.Some? {
        return Ok(Some(selected)), reports;
      }
      match resolve(selected.epicKey) {
        case Page(id) =>
          return Ok(Some(selected.(projectPage := Some(id)))), reports;
        case SetupBroken =>
          WithoutShrinks(sorted, skipped, selected.epicKey);
          Sequences.Regroup(reports, [selected], Scan(sorted, skipped + {selected.epicKey}, resolve).1);
          reports := reports + [selected];
          skipped := skipped + {selected.epicKey};
        case Unresolvable =>
          return Err(Unresolved(selected)), reports + [selected];
      }
    }
  }

  lemma SelectedErrs(s: Snapshot, query: Query, skipped: set<string>)
    ensures Selected(s, query.(excluded := skipped)).Err? <==> Selected(s, query).Err?
    ensures Selected(s, query).Err? ==> Selected(s, query.(excluded := skipped)) == Selected(s, query)
  {
  }

  lemma HeadKept(sorted: seq<Candidate>, skipped: set<string>)
    ensures var left := Without(sorted, skipped); left != [] ==> left[0] in left && left[0].epicKey !in skipped
  {
    WithoutHas(sorted, skipped);
    var left := Without(sorted, skipped);
    if left != [] {
      assert left[0] in left;
    }
  }

  // ---------------------------------------------------------------- what the pass finds

  predicate DistinctEpics(reports: seq<Candidate>) {
    forall i, j :: 0 <= i < j < |reports| ==> reports[i].epicKey != reports[j].epicKey
  }

  /** Fresh from the selection: no project page yet. */
  predicate Plain(candidates: seq<Candidate>) {
    forall c :: c in candidates ==> c.projectPage.None?
  }

  /** The first candidate whose epic is neither skipped nor broken. */
  function Stop(candidates: seq<Candidate>, skipped: set<string>, resolve: string -> Resolution): (k: nat)
    ensures k <= |candidates|
    ensures k < |candidates| ==> candidates[k].epicKey !in skipped && !resolve(candidates[k].epicKey).SetupBroken?
    ensures forall j :: 0 <= j < k ==> candidates[j].epicKey in skipped || resolve(candidates[j].epicKey).SetupBroken?
  {
    if candidates == [] || (candidates[0].epicKey !in skipped && !resolve(candidates[0].epicKey).SetupBroken?) then 0
    else Stop(candidates[1..], skipped, resolve) + 1
  }

  lemma {:induction false} StopSame(candidates: seq<Candidate>, skipped: set<string>, epic: string, resolve: string -> Resolution)
    requires resolve(epic).SetupBroken?
    ensures Stop(candidates, skipped + {epic}, resolve) == Stop(candidates, skipped, resolve)
  {
    if candidates != [] {
      StopSame(candidates[1..], skipped, epic, resolve);
    }
  }

  /** An epic that is not skipped, is met no later than `k` and does not resolve to a page. */
  predicate Met(candidates: seq<Candidate>, k: nat, skipped: set<string>, resolve: string -> Resolution, epic: string) {
    epic !in skipped && !resolve(epic).Page? && exists j :: 0 <= j <= k && j < |candidates| && candidates[j].epicKey == epic
  }

  predicate Reported(reports: seq<Candidate>, epic: string) {
    exists i :: 0 <= i < |reports| && reports[i].epicKey == epic
  }

  /** What ends the pass. */
  lemma {:induction false} ScanOutcome(candidates: seq<Candidate>, skipped: set<string>, resolve: string -> Resolution)
    requires Plain(candidates)
    ensures var k := Stop(candidates, skipped, resolve);
            Scan(candidates, skipped, resolve).0 ==
              if k == |candidates| then Ok(None)
              else match resolve(candidates[k].epicKey)
                   case Page(id) => Ok(Some(candidates[k].(projectPage := Some(id))))
                   case _ => Err(Unresolved(candidates[k]))
    decreases |candidates|
  {
    if candidates != [] {
      var c, rest := candidates[0], candidates[1..];
      assert c in candidates && Plain(rest);
      ScanOutcome(rest, skipped, resolve);
      if c.epicKey !in skipped && resolve(c.epicKey).SetupBroken? {
        ScanOutcome(rest, skipped + {c.epicKey}, resolve);
        StopSame(rest, skipped, c.epicKey, resolve);
      }
    }
  }

  /** What the pass reports: every failing epic it meets, each once. */
  lemma {:induction false} ScanReports(candidates: seq<Candidate>, skipped: set<string>, resolve: string -> Resolution, epic: string)
    requires Plain(candidates)
    ensures var reports := Scan(candidates, skipped, resolve).1;
            && DistinctEpics(reports)
            && (Reported(reports, epic) <==> Met(candidates, Stop(candidates, skipped, resolve), skipped, resolve, epic))
    decreases |candidates|
  {
    if candidates != [] {
      var c, rest := candidates[0], candidates[1..];
      assert c in candidates && Plain(rest);
      if c.epicKey in skipped {
        ScanReports(rest, skipped, resolve, epic);
        MetCons(candidates, Stop(rest, skipped, resolve), skipped, resolve, epic);
      } else if resolve(c.epicKey).SetupBroken? {
        var later := skipped + {c.epicKey};
        StopSame(rest, skipped, c.epicKey, resolve);
        ScanReports(rest, later, resolve, epic);
        ReportsFresh(candidates, skipped, resolve);
        MetCons(candidates, Stop(rest, skipped, resolve), skipped, resolve, epic);
        ReportedCons(c, Scan(rest, later, resolve).1, epic);
      } else {
        assert candidates[0] == c && [c][0] == c;
      }
    }
  }

  lemma MetCons(candidates: seq<Candidate>, k: nat, skipped: set<string>, resolve: string -> Resolution, epic: string)
    requires candidates != []
    ensures Met(candidates, k + 1, skipped, resolve, epic) <==>
              Met(candidates[1..], k, skipped, resolve, epic)
              || (candidates[0].epicKey == epic && epic !in skipped && !resolve(epic).Page?)
  {
    if Met(candidates[1..], k, skipped, resolve, epic) {
      var j :| 0 <= j <= k && j < |candidates| - 1 && candidates[1..][j].epicKey == epic;
      assert candidates[j + 1].epicKey == epic;
    }
    if Met(candidates, k + 1, skipped, resolve, epic) && candidates[0].epicKey != epic {
      var j :| 0 <= j <= k + 1 && j < |candidates| && candidates[j].epicKey == epic;
      assert candidates[1..][j - 1].epicKey == epic;
    }
  }

  lemma ReportedCons(c: Candidate, reports: seq<Candidate>, epic: string)
    ensures Reported([c] + reports, epic) <==> c.epicKey == epic || Reported(reports, epic)
  {
    if i :| 0 <= i < |reports| && reports[i].epicKey == epic {
      assert ([c] + reports)[i + 1].epicKey == epic;
    }
    assert ([c] + reports)[0] == c;
  }

  /** A broken epic is not reported again. */
  lemma ReportsFresh(candidates: seq<Candidate>, skipped: set<string>, resolve: string -> Resolution)
    requires Plain(candidates) && candidates != []
    ensures var c := candidates[0];
            forall r :: r in Scan(candidates[1..], skipped + {c.epicKey}, resolve).1 ==> r.epicKey != c.epicKey
  {
    ScanAvoids(candidates[1..], skipped + {candidates[0].epicKey}, resolve);
  }

  lemma {:induction false} ScanAvoids(candidates: seq<Candidate>, skipped: set<string>, resolve: string -> Resolution)
    ensures forall r :: r in Scan(candidates, skipped, resolve).1 ==> r.epicKey !in skipped
    decreases |candidates|
  {
    if candidates != [] {
      var c, rest := candidates[0], candidates[1..];
      if c.epicKey in skipped {
        ScanAvoids(rest, skipped, resolve);
      } else if resolve(c.epicKey).SetupBroken? {
        ScanAvoids(rest, skipped + {c.epicKey}, resolve);
      }
    }
  }

  lemma {:induction false} EligiblePlain(s: Snapshot, query: Query, pairs: seq<Pair>)
    ensures Plain(Eligible(s, query, pairs))
  {
    if pairs != [] {
      EligiblePlain(s, query, pairs[1..]);
      hide LastReview, HasOpenEpic, StatusSet;
    }
  }

  /** On one snapshot: nothing is found exactly when every pair that passes the gates belongs to a
      broken epic. A task that is returned passed the gates, its epic has the page, and whatever
      precedes it belongs to a broken epic. */
  lemma PlannerMeaning(s: Snapshot, query: Query, resolve: string -> Resolution)
    ensures var pairs := PairsOf(s, query.title);
            var r := Scan(Sort(Eligible(s, query, pairs), Precedes), {}, resolve).0;
            && (r == Ok(None) <==> forall q :: q in pairs && Qualifies(s, query, q) ==> resolve(CandidateOf(s, q).epicKey).SetupBroken?)
            && (r.Ok? && r.value.Some? ==>
                  var c := r.value.value;
                  && (exists q :: q in pairs && Qualifies(s, query, q) && c.(projectPage := None) == CandidateOf(s, q))
                  && resolve(c.epicKey).Page? && c.projectPage == Some(resolve(c.epicKey).id)
                  && forall q | q in pairs && Qualifies(s, query, q) ::
                       !NotLater(c, q.calculation) ==> resolve(CandidateOf(s, q).epicKey).SetupBroken?)
            && (r.Err? ==>
                  && r.error.Unresolved?
                  && var c := r.error.candidate;
                  && (exists q :: q in pairs && Qualifies(s, query, q) && c == CandidateOf(s, q))
                  && resolve(c.epicKey).Unresolvable?
                  && forall q | q in pairs && Qualifies(s, query, q) ::
                       !NotLater(c, q.calculation) ==> resolve(CandidateOf(s, q).epicKey).SetupBroken?)
  {
    hide LastReview, HasOpenEpic, StatusSet, CandidateOf, Eligible, Pairs, Sort, Scan, Precedes, Plain, Sorted, NotLater;
    var sorted := SortedEligible(s, query);
    ScanFinds(sorted, resolve);
    var r := Scan(sorted, {}, resolve).0;
    if r != Ok(None) {
      var c := if r.Ok? then r.value.value else r.error.candidate;
      forall q | q in PairsOf(s, query.title) && Qualifies(s, query, q) && !NotLater(c, q.calculation)
        ensures resolve(CandidateOf(s, q).epicKey).SetupBroken?
      {
        NotPreceded(s, q, c);
        assert CandidateOf(s, q) in sorted;
      }
    }
  }

  lemma SortedEligible(s: Snapshot, query: Query) returns (sorted: seq<Candidate>)
    ensures sorted == Sort(Eligible(s, query, PairsOf(s, query.title)), Precedes)
    ensures Plain(sorted) && Sorted(sorted, Precedes)
    ensures forall q | q in PairsOf(s, query.title) && Qualifies(s, query, q) :: CandidateOf(s, q) in sorted
    ensures forall c | c in sorted :: exists q :: q in PairsOf(s, query.title) && Qualifies(s, query, q) && c == CandidateOf(s, q)
  {
    hide LastReview, HasOpenEpic, StatusSet, CandidateOf, Eligible, Pairs, Sort, Precedes, Sorted;
    var pairs := PairsOf(s, query.title);
    var eligible := Eligible(s, query, pairs);
    sorted := Sort(eligible, Precedes);
    PrecedesIsStrict();
    EligibleHas(s, query, pairs);
    EligiblePlain(s, query, pairs);
    SortSame(eligible, Precedes);
    SortSorted(eligible, Precedes);
  }

  /** The same for any sorted candidates. */
  lemma ScanFinds(sorted: seq<Candidate>, resolve: string -> Resolution)
    requires Plain(sorted) && Sorted(sorted, Precedes)
    ensures var r := Scan(sorted, {}, resolve).0;
            && (r == Ok(None) <==> forall c :: c in sorted ==> resolve(c.epicKey).SetupBroken?)
            && (r.Ok? && r.value.Some? ==>
                  var c := r.value.value;
                  && c.(projectPage := None) in sorted
                  && resolve(c.epicKey).Page? && c.projectPage == Some(resolve(c.epicKey).id)
                  && forall d | d in sorted :: Precedes(d, c) ==> resolve(d.epicKey).SetupBroken?)
            && (r.Err? ==>
                  && r.error.Unresolved?
                  && var c := r.error.candidate;
                  && c in sorted && resolve(c.epicKey).Unresolvable?
                  && forall d | d in sorted :: Precedes(d, c) ==> resolve(d.epicKey).SetupBroken?)
  {
    ScanOutcome(sorted, {}, resolve);
    StopMeans(sorted, resolve);
    hide Scan, Stop, Sorted;
    var k := Stop(sorted, {}, resolve);
    if k < |sorted| {
      assert sorted[k] in sorted;
    }
  }

  lemma StopMeans(sorted: seq<Candidate>, resolve: string -> Resolution)
    requires Sorted(sorted, Precedes)
    ensures var k := Stop(sorted, {}, resolve);
            && (k == |sorted| <==> forall c :: c in sorted ==> resolve(c.epicKey).SetupBroken?)
            && (k < |sorted| ==> forall c :: c in sorted && Precedes(c, sorted[k]) ==> resolve(c.epicKey).SetupBroken?)
  {
    hide Precedes;
    var k := Stop(sorted, {}, resolve);
    if k < |sorted| {
      assert sorted[k] in sorted;
      PrecedesIsStrict();
    }
  }
}
