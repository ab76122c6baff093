/** `select_candidate`: the gates over the pairing of one Jira snapshot, and the oldest that passes. */
module Selector {
  import opened Wrappers
  import opened Ordering
  import Sequences
  import opened Pairing
  import opened Board

  /** What Jira answers. `board` holds the issues of the board filter, `children` all child issues. */
  datatype Snapshot = Snapshot(hasFilter: bool, columns: seq<Column>, board: seq<Issue>, children: seq<Issue>,
                               changelogs: map<string, seq<Change>>)

  datatype Candidate = Candidate(taskKey: string, epicKey: string, pitchKey: string, taskCreatedAt: int,
                                 pitchReviewedAt: int, projectPage: Option<string>)

  datatype SelectionError = NoFilter | MissingColumns

  /** What a selection is asked for. */
  datatype Query = Query(title: string, claimed: Option<string>, excluded: set<string>, lower: int, moment: int)

  const EPIC_COMPONENT := "Project - Hypothesis"
  const EPIC_TYPES := {"epic", "эпик"}
  const EPIC_COLUMNS := {"in progress"}
  const QUEUED_COLUMNS := {"backlog", "бэклог", "to do"}
  const REVIEWED_COLUMNS := {"in review", "done"}
  const CLAIMED_COLUMNS := {"in progress", "in review", "done"}

  // ---------------------------------------------------------------- the gates

  function Changes(s: Snapshot, key: string): seq<Change> {
    if key in s.changelogs then s.changelogs[key] else []
  }

  /** Epics in progress with the component. */
  predicate IsOpenEpic(s: Snapshot, issue: Issue) {
    issue.issueType in EPIC_TYPES && issue.status in StatusSet(s.columns, EPIC_COLUMNS) && EPIC_COMPONENT in issue.components
  }

  predicate HasOpenEpic(s: Snapshot, key: string) {
    exists i :: 0 <= i < |s.board| && s.board[i].key == key && IsOpenEpic(s, s.board[i])
  }

  /** The children of the open epics. */
  function Children(s: Snapshot, children: seq<Issue>): seq<Issue> {
    if children == [] then []
    else if children[0].parent.Some? && HasOpenEpic(s, children[0].parent.value)
    then [children[0]] + Children(s, children[1..])
    else Children(s, children[1..])
  }

  /** Everything a pair has to meet to be selected. */
  ghost predicate Qualifies(s: Snapshot, query: Query, q: Pair) {
    && q.calculation.parent.Some?
    && HasOpenEpic(s, q.calculation.parent.value)
    && q.calculation.parent.value !in query.excluded
    && (query.claimed.Some? ==> q.calculation.key == query.claimed.value)
    && q.calculation.status in StatusSet(s.columns, if query.claimed.Some? then CLAIMED_COLUMNS else QUEUED_COLUMNS)
    && q.pitch.status in StatusSet(s.columns, REVIEWED_COLUMNS)
    && var reviewed := LastReview(s, q.pitch.key);
       reviewed.Some? && query.lower <= reviewed.value <= query.moment
  }

  ghost function LastReview(s: Snapshot, key: string): Option<int> {
    Latest(Changes(s, key), StatusSet(s.columns, REVIEWED_COLUMNS))
  }

  ghost function CandidateOf(s: Snapshot, q: Pair): Candidate
    requires q.calculation.parent.Some? && LastReview(s, q.pitch.key).Some?
  {
    Candidate(q.calculation.key, q.calculation.parent.value, q.pitch.key, q.calculation.createdAt,
              LastReview(s, q.pitch.key).value, None)
  }

  ghost function Eligible(s: Snapshot, query: Query, pairs: seq<Pair>): seq<Candidate> {
    if pairs == [] then []
    else (if Qualifies(s, query, pairs[0]) then [CandidateOf(s, pairs[0])] else []) + Eligible(s, query, pairs[1..])
  }

  // ---------------------------------------------------------------- the oldest

  predicate IsDigit(c: char) {
    '0' <= c <= '9'
  }

  /** The number a key ends with; 0 for none. */
  function TrailingNumber(key: string): nat {
    if key == "" || !IsDigit(key[|key| - 1]) then 0
    else TrailingNumber(key[..|key| - 1]) * 10 + (key[|key| - 1] as int - '0' as int)
  }

  function Digit(n: nat): char
    requires n < 10
  {
    ('0' as int + n) as char
  }

  function Decimal(n: nat): string {
    if n < 10 then [Digit(n)] else Decimal(n / 10) + [Digit(n % 10)]
  }

  lemma NumberSnoc(key: string, n: nat)
    requires n < 10
    ensures TrailingNumber(key + [Digit(n)]) == TrailingNumber(key) * 10 + n
  {
    assert (key + [Digit(n)])[..|key|] == key;
  }

  /** Jira keys are a project and a number: it is the number that counts. */
  lemma {:induction false} NumberOfKey(project: string, n: nat)
    requires project == "" || !IsDigit(project[|project| - 1])
    ensures TrailingNumber(project + Decimal(n)) == n
  {
    if n < 10 {
      NumberSnoc(project, n);
    } else {
      NumberOfKey(project, n / 10);
      NumberSnoc(project + Decimal(n / 10), n % 10);
      assert project + Decimal(n) == project + Decimal(n / 10) + [Digit(n % 10)];
    }
  }

  predicate Precedes(a: Candidate, b: Candidate) {
    a.taskCreatedAt < b.taskCreatedAt
    || (a.taskCreatedAt == b.taskCreatedAt && TrailingNumber(a.taskKey) < TrailingNumber(b.taskKey))
  }

  lemma PrecedesIsStrict()
    ensures StrictOrder(Precedes)
  {
  }

  /** The first of the least. */
  predicate IsOldest(candidates: seq<Candidate>, i: nat) {
    && i < |candidates|
    && (forall j :: 0 <= j < |candidates| ==> !Precedes(candidates[j], candidates[i]))
    && (forall j :: 0 <= j < i ==> Precedes(candidates[i], candidates[j]))
  }

  ghost function Oldest(candidates: seq<Candidate>): (r: Option<Candidate>)
    ensures r.None? <==> candidates == []
    ensures forall i: nat :: IsOldest(candidates, i) ==> r == Some(candidates[i])
  {
    if candidates == [] then None
    else
      OldestExists(candidates);
      var i: nat :| IsOldest(candidates, i);
      Some(candidates[i])
  }

  lemma OldestExists(candidates: seq<Candidate>)
    requires candidates != []
    ensures exists i: nat :: IsOldest(candidates, i)
  {
    var n := |candidates| - 1;
    if n == 0 {
      assert IsOldest(candidates, 0);
    } else {
      OldestExists(candidates[..n]);
      var i: nat :| IsOldest(candidates[..n], i);
      if Precedes(candidates[n], candidates[i]) {
        assert IsOldest(candidates, n);
      } else {
        assert IsOldest(candidates, i);
      }
    }
  }

  method Min(candidates: seq<Candidate>) returns (r: Option<Candidate>)
    ensures r == Oldest(candidates)
  {
    if candidates == [] {
      return None;
    }
    var least := 0;
    for i := 1 to |candidates|
      invariant least < i && IsOldest(candidates[..i], least)
    {
      if Precedes(candidates[i], candidates[least]) {
        least := i;
      }
    }
    assert candidates[..|candidates|] == candidates;
    r := Some(candidates[least]);
  }

  // ---------------------------------------------------------------- the selection

  ghost function Selected(s: Snapshot, query: Query): Result<Option<Candidate>, SelectionError> {
    if !s.hasFilter then Err(NoFilter)
    else if !HasColumns(s.columns) then Err(MissingColumns)
    else Ok(Oldest(Eligible(s, query, Pairs(Children(s, s.children), query.title))))
  }

  predicate HasColumns(columns: seq<Column>) {
    StatusSet(columns, EPIC_COLUMNS) != {} && StatusSet(columns, QUEUED_COLUMNS) != {} && StatusSet(columns, REVIEWED_COLUMNS) != {}
  }

  /** The gates of the loop, in the order of the checks; the changelog is read last. */
  method Gate(s: Snapshot, query: Query, q: Pair, taskStatuses: set<string>, reviewedStatuses: set<string>)
    returns (r: Option<Candidate>)
    requires taskStatuses == StatusSet(s.columns, if query.claimed.Some? then CLAIMED_COLUMNS else QUEUED_COLUMNS)
    requires reviewedStatuses == StatusSet(s.columns, REVIEWED_COLUMNS)
    ensures r == if Qualifies(s, query, q) then Some(CandidateOf(s, q)) else None
  {
    var task := q.calculation;
    if task.parent.None? || !HasOpenEpic(s, task.parent.value) || task.parent.value in query.excluded {
      return None;
    }
    if query.claimed.Some? && task.key != query.claimed.value {
      return None;
    }
    if task.status !in taskStatuses || q.pitch.status !in reviewedStatuses {
      return None;
    }
    var transition := LatestTransition(Changes(s, q.pitch.key), reviewedStatuses);
    if transition.None? || !(query.lower <= transition.value <= query.moment) {
      return None;
    }
    r := Some(Candidate(task.key, task.parent.value, q.pitch.key, task.createdAt, transition.value, None));
  }

  method SelectCandidate(s: Snapshot, query: Query) returns (r: Result<Option<Candidate>, SelectionError>)
    ensures r == Selected(s, query)
  {
    if !s.hasFilter {
      return Err(NoFilter);
    }
    var columns := ColumnStatuses(s.columns);
    var queuedStatuses := StatusesFor(columns, QUEUED_COLUMNS);
    var reviewedStatuses := StatusesFor(columns, REVIEWED_COLUMNS);
    if StatusesFor(columns, EPIC_COLUMNS) == {} || queuedStatuses == {} || reviewedStatuses == {} {
      return Err(MissingColumns);
    }
    var pairs := PairChildren(Children(s, s.children), query.title);
    var taskStatuses := if query.claimed.Some? then StatusesFor(columns, CLAIMED_COLUMNS) else queuedStatuses;
    hide Qualifies, CandidateOf, StatusSet, StatusesFor;
    var eligible := Admit(s, query, pairs, taskStatuses, reviewedStatuses);
    var oldest := Min(eligible);
    r := Ok(oldest);
  }

  /** The loop over the pairs. */
  method Admit(s: Snapshot, query: Query, pairs: seq<Pair>, taskStatuses: set<string>, reviewedStatuses: set<string>)
    returns (eligible: seq<Candidate>)
    requires taskStatuses == StatusSet(s.columns, if query.claimed.Some? then CLAIMED_COLUMNS else QUEUED_COLUMNS)
    requires reviewedStatuses == StatusSet(s.columns, REVIEWED_COLUMNS)
    ensures eligible == Eligible(s, query, pairs)
  {
    hide Qualifies, CandidateOf, StatusSet;
    eligible := [];
    assert pairs[0..] == pairs;
    for i := 0 to |pairs|
      invariant eligible + Eligible(s, query, pairs[i..]) == Eligible(s, query, pairs)
    {
      var candidate := Gate(s, query, pairs[i], taskStatuses, reviewedStatuses);
      assert pairs[i..][1..] == pairs[i + 1..];
      if candidate.Some? {
        Sequences.Regroup(eligible, [candidate.value], Eligible(s, query, pairs[i + 1..]));
        eligible := eligible + [candidate.value];
      }
    }
    assert pairs[|pairs|..] == [];
  }
}
