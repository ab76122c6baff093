/** The selection as a whole: what it returns, and when the claim confirmation of `run_preparation`
    finds the same task again. */
module Claim {
  import opened Wrappers
  import opened Text
  import opened Ordering
  import opened Pairing
  import opened PairingProperties
  import opened Board
  import opened Selector

  ghost function PairsOf(s: Snapshot, title: string): seq<Pair> {
    Pairs(Children(s, s.children), title)
  }

  lemma {:induction false} EligibleHas(s: Snapshot, query: Query, pairs: seq<Pair>)
    ensures forall c :: c in Eligible(s, query, pairs) <==> exists q :: q in pairs && Qualifies(s, query, q) && c == CandidateOf(s, q)
  {
    if pairs != [] {
      EligibleHas(s, query, pairs[1..]);
      hide LastReview, HasOpenEpic, StatusSet, CandidateOf;
      assert pairs == [pairs[0]] + pairs[1..];
      assert forall q :: q in pairs <==> q == pairs[0] || q in pairs[1..];
    }
  }

  /** The result is a pair that passes every gate and that no other such pair precedes; there is
      none exactly when no pair passes. */
  lemma SelectionMeaning(s: Snapshot, query: Query)
    requires Selected(s, query).Ok?
    ensures var r, pairs := Selected(s, query).value, PairsOf(s, query.title);
            match r
            case None => forall q :: q in pairs ==> !Qualifies(s, query, q)
            case Some(c) =>
              && (exists q :: q in pairs && Qualifies(s, query, q) && c == CandidateOf(s, q))
              && (forall q :: q in pairs && Qualifies(s, query, q) ==> NotLater(c, q.calculation))
  {
    var pairs := PairsOf(s, query.title);
    var eligible := Eligible(s, query, pairs);
    EligibleHas(s, query, pairs);
    hide LastReview, HasOpenEpic, StatusSet, CandidateOf, Precedes, Pairs, Eligible, NotLater;
    assert forall q | q in pairs && Qualifies(s, query, q) :: CandidateOf(s, q) in eligible;
    if eligible != [] {
      OldestExists(eligible);
      var i: nat :| IsOldest(eligible, i);
      assert eligible[i] in eligible;
      forall q | q in pairs && Qualifies(s, query, q) ensures NotLater(eligible[i], q.calculation) {
        NotPreceded(s, q, eligible[i]);
      }
    }
  }

  /** `c` was created before `task`, or at the same time with no greater number. */
  predicate NotLater(c: Candidate, task: Issue) {
    c.taskCreatedAt < task.createdAt
    || (c.taskCreatedAt == task.createdAt && TrailingNumber(c.taskKey) <= TrailingNumber(task.key))
  }

  lemma NotPreceded(s: Snapshot, q: Pair, c: Candidate)
    requires q.calculation.parent.Some? && LastReview(s, q.pitch.key).Some?
    ensures !Precedes(CandidateOf(s, q), c) <==> NotLater(c, q.calculation)
  {
    hide LastReview, TrailingNumber;
  }

  /** The gates in the system's own terms: the task's epic is an issue of the board of an epic type, with the
      hypothesis component, in an "in progress" column; the task stands in a queue column, or, when it is the
      claimed one, in a claimed column; its pitch stands in a reviewed column and last came to a reviewed
      status within the window. */
  lemma QualifiesIff(s: Snapshot, query: Query, q: Pair)
    ensures Qualifies(s, query, q) <==>
              && (exists i :: 0 <= i < |s.board| && q.calculation.parent == Some(s.board[i].key)
                    && (s.board[i].issueType == "epic" || s.board[i].issueType == "эпик")
                    && "Project - Hypothesis" in s.board[i].components
                    && HasStatus(s.columns, {"in progress"}, s.board[i].status))
              && (exists epic :: q.calculation.parent == Some(epic) && epic !in query.excluded)
              && (match query.claimed
                  case None => HasStatus(s.columns, {"backlog", "бэклог", "to do"}, q.calculation.status)
                  case Some(key) =>
                    q.calculation.key == key && HasStatus(s.columns, {"in progress", "in review", "done"}, q.calculation.status))
              && HasStatus(s.columns, {"in review", "done"}, q.pitch.status)
              && exists at ::
                   IsLatest(if q.pitch.key in s.changelogs then s.changelogs[q.pitch.key] else [],
                            StatusSet(s.columns, {"in review", "done"}), Some(at))
                   && query.lower <= at <= query.moment
  {
    hide Latest, IsLatest, Matches, StatusSet, HasStatus, HasOpenEpic;
    StatusSetHas(s.columns, QUEUED_COLUMNS, q.calculation.status);
    StatusSetHas(s.columns, CLAIMED_COLUMNS, q.calculation.status);
    StatusSetHas(s.columns, REVIEWED_COLUMNS, q.pitch.status);
    if q.calculation.parent.Some? {
      EpicIff(s, q.calculation.parent.value);
    }
    ReviewIs(s, q.pitch.key);
  }

  lemma EpicIff(s: Snapshot, key: string)
    ensures HasOpenEpic(s, key) <==>
              exists i :: 0 <= i < |s.board| && key == s.board[i].key
                && (s.board[i].issueType == "epic" || s.board[i].issueType == "эпик")
                && "Project - Hypothesis" in s.board[i].components
                && HasStatus(s.columns, {"in progress"}, s.board[i].status)
  {
    hide StatusSet, HasStatus;
    forall i | 0 <= i < |s.board|
      ensures s.board[i].status in StatusSet(s.columns, {"in progress"}) <==> HasStatus(s.columns, {"in progress"}, s.board[i].status)
    {
      StatusSetHas(s.columns, {"in progress"}, s.board[i].status);
    }
  }

  lemma ReviewIs(s: Snapshot, key: string)
    ensures var histories := if key in s.changelogs then s.changelogs[key] else [];
            var reviewed := StatusSet(s.columns, {"in review", "done"});
            && IsLatest(histories, reviewed, LastReview(s, key))
            && forall at :: IsLatest(histories, reviewed, Some(at)) ==> LastReview(s, key) == Some(at)
  {
    var histories := if key in s.changelogs then s.changelogs[key] else [];
    var reviewed := StatusSet(s.columns, {"in review", "done"});
    LatestIs(histories, reviewed);
    hide StatusSet, Matches;
    forall at | IsLatest(histories, reviewed, Some(at)) ensures LastReview(s, key) == Some(at) {
      LatestUnique(histories, reviewed, Some(at));
    }
  }

  lemma {:induction false} ChildrenHas(s: Snapshot, children: seq<Issue>)
    ensures forall x :: x in Children(s, children) <==> x in children && x.parent.Some? && HasOpenEpic(s, x.parent.value)
    ensures DistinctKeys(children) ==> DistinctKeys(Children(s, children))
    decreases |children|
  {
    hide HasOpenEpic;
    if children != [] {
      ChildrenHas(s, children[1..]);
      if DistinctKeys(children) && children[0].parent.Some? && HasOpenEpic(s, children[0].parent.value) {
        ConsDistinct(children, Children(s, children[1..]));
      }
      assert children == [children[0]] + children[1..];
    }
  }

  lemma {:induction false} ChildrenLocal(s: Snapshot, t: Snapshot, children: seq<Issue>)
    requires s.board == t.board && s.columns == t.columns
    ensures Children(s, children) == Children(t, children)
    decreases |children|
  {
    if children != [] {
      ChildrenLocal(s, t, children[1..]);
    }
  }

  /** The order in which Jira lists the children plays no part. */
  lemma SelectionOrderIndependent(s: Snapshot, listed: seq<Issue>, query: Query)
    requires Rearranged(s.children, listed)
    ensures Selected(s.(children := listed), query) == Selected(s, query)
  {
    var t := s.(children := listed);
    ChildrenHas(s, s.children);
    ChildrenHas(s, listed);
    ChildrenLocal(s, t, listed);
    assert Rearranged(Children(s, s.children), Children(t, listed));
    OrderIndependent(Children(s, s.children), Children(t, listed), query.title);
    SameGates(s, t, query, PairsOf(s, query.title));
  }

  /** The gates do not read the list of children. */
  lemma {:induction false} SameGates(s: Snapshot, t: Snapshot, query: Query, pairs: seq<Pair>)
    requires t == s.(children := t.children)
    ensures Eligible(s, query, pairs) == Eligible(t, query, pairs)
  {
    if pairs != [] {
      SameGates(s, t, query, pairs[1..]);
      assert Qualifies(s, query, pairs[0]) == Qualifies(t, query, pairs[0]);
    }
  }

  // ---------------------------------------------------------------- claim confirmation

  /** Jira after the task moved to another status, and nothing else changed. */
  function AfterClaim(s: Snapshot, taskKey: string, status: string): Snapshot {
    s.(children := AllMoved(s.children, taskKey, status))
  }

  lemma {:induction false} ChildrenMoved(s: Snapshot, children: seq<Issue>, key: string, status: string)
    ensures Children(s, AllMoved(children, key, status)) == AllMoved(Children(s, children), key, status)
    decreases |children|
  {
    hide HasOpenEpic;
    if children != [] {
      ChildrenMoved(s, children[1..], key, status);
      assert AllMoved(children, key, status)[1..] == AllMoved(children[1..], key, status);
    }
  }

  /** The same issues are paired after the claim. */
  lemma PairsAfterClaim(s: Snapshot, title: string, key: string, status: string)
    ensures PairsOf(AfterClaim(s, key, status), title) == PairsMoved(PairsOf(s, title), key, status)
  {
    var t := AfterClaim(s, key, status);
    ChildrenLocal(s, t, t.children);
    ChildrenMoved(s, s.children, key, status);
    StatusBlind(Children(s, s.children), title, key, status);
  }

  lemma {:induction false} OnlyOneClaimed(s: Snapshot, query: Query, pairs: seq<Pair>, k: nat)
    requires OneToOne(pairs) && k < |pairs| && query.claimed == Some(pairs[k].calculation.key)
    ensures Eligible(s, query, pairs) == if Qualifies(s, query, pairs[k]) then [CandidateOf(s, pairs[k])] else []
  {
    hide LastReview, HasOpenEpic, StatusSet;
    if k == 0 {
      NoneClaimed(s, query, pairs[1..]);
    } else {
      assert pairs[0].calculation.key != pairs[k].calculation.key;
      OnlyOneClaimed(s, query, pairs[1..], k - 1);
    }
  }

  lemma {:induction false} NoneClaimed(s: Snapshot, query: Query, pairs: seq<Pair>)
    requires query.claimed.Some? && forall i :: 0 <= i < |pairs| ==> pairs[i].calculation.key != query.claimed.value
    ensures Eligible(s, query, pairs) == []
  {
    if pairs != [] {
      NoneClaimed(s, query, pairs[1..]);
    }
  }

  lemma MovedOneToOne(pairs: seq<Pair>, key: string, status: string)
    requires OneToOne(pairs)
    ensures OneToOne(PairsMoved(pairs, key, status))
  {
  }

  lemma OldestOfOne(c: Candidate)
    ensures Oldest([c]) == Some(c)
  {
    assert IsOldest([c], 0);
  }

  /** The gates for the confirmation, after the first selection passed its own. */
  lemma ConfirmGates(s: Snapshot, query: Query, confirm: Query, q: Pair, status: string)
    requires query.claimed.None? && confirm.claimed == Some(q.calculation.key) && confirm.excluded == {}
    requires Qualifies(s, query, q) && query.moment <= confirm.moment
    ensures var t, key := AfterClaim(s, q.calculation.key, status), q.calculation.key;
            var moved := Pair(Moved(q.pitch, key, status), Moved(q.calculation, key, status));
            && (Qualifies(t, confirm, moved) <==>
                  && confirm.lower <= CandidateOf(s, q).pitchReviewedAt
                  && status in StatusSet(s.columns, CLAIMED_COLUMNS)
                  && (q.pitch.key != key || status in StatusSet(s.columns, REVIEWED_COLUMNS)))
            && (Qualifies(t, confirm, moved) ==> CandidateOf(t, moved) == CandidateOf(s, q))
  {
    hide StatusSet, Latest;
    var t := AfterClaim(s, q.calculation.key, status);
    assert HasOpenEpic(t, q.calculation.parent.value) == HasOpenEpic(s, q.calculation.parent.value);
    assert LastReview(t, q.pitch.key) == LastReview(s, q.pitch.key);
  }

  /** The confirmation, at the same moment or later, returns the selected task with its epic and its
      pitch exactly when the pitch's review still lies in the window, the task's new status is a
      claimed one and, should the task be its own pitch, also a reviewed one. Otherwise it finds
      nothing: it never answers with another task or another pairing. */
  lemma ClaimConfirmIff(s: Snapshot, query: Query, c: Candidate, status: string, confirm: Query)
    requires DistinctKeys(s.children)
    requires query.claimed.None? && Selected(s, query) == Ok(Some(c))
    requires confirm.title == query.title && confirm.claimed == Some(c.taskKey) && confirm.excluded == {}
    requires query.moment <= confirm.moment
    ensures var stable :=
              && confirm.lower <= c.pitchReviewedAt
              && status in StatusSet(s.columns, CLAIMED_COLUMNS)
              && (c.pitchKey != c.taskKey || status in StatusSet(s.columns, REVIEWED_COLUMNS));
            Selected(AfterClaim(s, c.taskKey, status), confirm) == Ok(if stable then Some(c) else None)
  {
    hide LastReview, HasOpenEpic, StatusSet, CandidateOf, Pairs, Eligible, Precedes, OneToOne, Proper;
    var t, pairs := AfterClaim(s, c.taskKey, status), PairsOf(s, query.title);
    SelectionMeaning(s, query);
    var q :| q in pairs && Qualifies(s, query, q) && c == CandidateOf(s, q);
    var k :| 0 <= k < |pairs| && pairs[k] == q;
    ChildrenHas(s, s.children);
    PairsMatch(Children(s, s.children), query.title);
    ConfirmPair(s, query, c, status, confirm, k);
  }

  lemma ConfirmPair(s: Snapshot, query: Query, c: Candidate, status: string, confirm: Query, k: nat)
    requires OneToOne(PairsOf(s, query.title)) && k < |PairsOf(s, query.title)|
    requires var q := PairsOf(s, query.title)[k]; Qualifies(s, query, q) && c == CandidateOf(s, q)
    requires s.hasFilter && HasColumns(s.columns)
    requires query.claimed.None? && query.moment <= confirm.moment
    requires confirm.title == query.title && confirm.claimed == Some(c.taskKey) && confirm.excluded == {}
    ensures Selected(AfterClaim(s, c.taskKey, status), confirm)
         == Ok(if confirm.lower <= c.pitchReviewedAt
                  && status in StatusSet(s.columns, CLAIMED_COLUMNS)
                  && (c.pitchKey != c.taskKey || status in StatusSet(s.columns, REVIEWED_COLUMNS)) then Some(c) else None)
  {
    var t, pairs := AfterClaim(s, c.taskKey, status), PairsOf(s, query.title);
    var moved := PairsMoved(pairs, c.taskKey, status);
    PairsAfterClaim(s, query.title, c.taskKey, status);
    MovedOneToOne(pairs, c.taskKey, status);
    OnlyOneClaimed(t, confirm, moved, k);
    ConfirmGates(s, query, confirm, pairs[k], status);
    hide Qualifies, Pairs, Eligible, Precedes, OneToOne, Proper;
    if Qualifies(t, confirm, moved[k]) {
      OldestOfOne(c);
    }
  }

  // ---------------------------------------------------------------- a task that is its own pitch

  /** Only a status that is both a queued and a reviewed one lets a selection return a task as its own
      prerequisite. */
  lemma SelfPairNeedsSharedStatus(s: Snapshot, query: Query, c: Candidate)
    requires DistinctKeys(s.children) && query.claimed.None?
    requires Selected(s, query) == Ok(Some(c)) && c.pitchKey == c.taskKey
    ensures exists status :: status in StatusSet(s.columns, QUEUED_COLUMNS) && status in StatusSet(s.columns, REVIEWED_COLUMNS)
  {
    hide LastReview, HasOpenEpic, StatusSet, Pairs, Eligible, Precedes;
    SelectionMeaning(s, query);
    var q :| q in PairsOf(s, query.title) && Qualifies(s, query, q) && c == CandidateOf(s, q);
    ChildrenHas(s, s.children);
    PairsMatch(Children(s, s.children), query.title);
    assert Proper(Children(s, s.children), query.title, q);
    if q.calculation != q.pitch {
      KeyDecides(s.children, q.calculation, q.pitch);
    }
    assert q.calculation.status in StatusSet(s.columns, QUEUED_COLUMNS);
  }

  /** Such a board: one status stands in a queued and in a reviewed column. */
  function SharedStatusBoard(summary: string): Snapshot {
    Snapshot(true,
             [Column("in progress", ["active"]), Column("to do", ["shared"]), Column("done", ["shared"])],
             [Issue("E-1", "", "epic", "active", {EPIC_COMPONENT}, 0, None)],
             [SelfTask(summary)],
             map["T-1" := [Change(5, ["shared"])]])
  }

  function SelfTask(summary: string): Issue {
    Issue("T-1", summary, "task", "shared", {}, 0, Some("E-1"))
  }

  lemma SharedStatuses(summary: string)
    ensures var columns := SharedStatusBoard(summary).columns;
            && "active" in StatusSet(columns, EPIC_COLUMNS)
            && "shared" in StatusSet(columns, QUEUED_COLUMNS) && "shared" in StatusSet(columns, REVIEWED_COLUMNS)
            && "active" in StatusSet(columns, CLAIMED_COLUMNS) && "active" !in StatusSet(columns, REVIEWED_COLUMNS)
  {
    var columns := SharedStatusBoard(summary).columns;
    assert |columns[0].name| == 11 && |columns[1].name| == 5 && |columns[2].name| == 4;
    InColumn(columns, 0, EPIC_COLUMNS, "active");
    InColumn(columns, 0, CLAIMED_COLUMNS, "active");
    InColumn(columns, 1, QUEUED_COLUMNS, "shared");
    InColumn(columns, 2, REVIEWED_COLUMNS, "shared");
    hide LastOf;
    assert "active"[0] != "shared"[0];
    forall i: nat | i < |columns| && columns[i].name in REVIEWED_COLUMNS ensures "active" !in columns[i].statuses {
    }
  }

  lemma InColumn(columns: seq<Column>, i: nat, names: set<string>, status: string)
    requires i < |columns| && columns[i].name in names && status in columns[i].statuses
    requires forall j :: i < j < |columns| ==> columns[j].name != columns[i].name
    ensures status in StatusSet(columns, names)
  {
    assert LastOf(columns, i, |columns|);
    assert HasStatus(columns, names, status);
  }

  lemma SortOne<T>(x: T, before: (T, T) -> bool)
    ensures Sort([x], before) == [x]
  {
    assert [x][1..] == [] && Sort([], before) == [];
    assert [x] + [] == [x];
  }

  lemma TitledOne(task: Issue, title: string)
    requires Contains(task.summary, title)
    ensures Titled([task], title) == [task]
  {
    hide Contains;
    assert [task][1..] == [] && Titled([], title) == [];
    assert [task] + [] == [task];
  }

  lemma SelfPaired(task: Issue, title: string)
    requires task.parent.Some? && Contains(task.summary, title) && Contains(task.summary, PREREQUISITE_TITLE)
    ensures Pairs([task], title) == [Pair(task, task)]
  {
    hide Contains;
    var parent := task.parent.value;
    assert [task][1..] == [] && [task][..0] == [];
    TitledOne(task, title);
    TitledOne(task, PREREQUISITE_TITLE);
    SortOne(parent, StringBefore);
    SortOne(task, Older);
    assert Parents([task]) == [parent];
    assert Siblings([], parent) == [] && [task] + [] == [task];
    assert Siblings([task], parent) == [task];
    assert UniqueNearest(task, [task], {}, 0);
    assert Greedy([], [task], {task.key}) == [];
    assert Greedy([task], [task], {}) == [Pair(task, task)];
    assert [parent][1..] == [] && Families([], [task], title) == [];
  }

  /** The task is selected as its own prerequisite, and once it is claimed the confirmation finds
      nothing. */
  lemma SelfPairIsNotConfirmed(summary: string, title: string)
    requires Contains(summary, title) && Contains(summary, PREREQUISITE_TITLE)
    ensures var s, query := SharedStatusBoard(summary), Query(title, None, {}, 0, 10);
            var c := Candidate("T-1", "E-1", "T-1", 0, 5, None);
            && Selected(s, query) == Ok(Some(c))
            && Selected(AfterClaim(s, "T-1", "active"), Query(title, Some("T-1"), {}, 0, 10)) == Ok(None)
  {
    var s, query := SharedStatusBoard(summary), Query(title, None, {}, 0, 10);
    var c := Candidate("T-1", "E-1", "T-1", 0, 5, None);
    var task := SelfTask(summary);
    SharedStatuses(summary);
    SelfPaired(task, title);
    SelfSelected(s, query, task, c);
    hide Selected, StatusSet, Contains;
    ClaimConfirmIff(s, query, c, "active", Query(title, Some("T-1"), {}, 0, 10));
  }

  lemma OneMove(at: int, status: string, eligible: set<string>)
    requires status in eligible
    ensures Latest([Change(at, [status])], eligible) == Some(at)
  {
    var change := Change(at, [status]);
    assert change.moves[0] == status && MovesTo(change, eligible);
    assert [change][..0] == [] && Latest([], eligible) == None;
  }

  lemma SelfSelected(s: Snapshot, query: Query, task: Issue, c: Candidate)
    requires s == SharedStatusBoard(task.summary) && task == SelfTask(task.summary)
    requires query == Query(query.title, None, {}, 0, 10) && c == Candidate("T-1", "E-1", "T-1", 0, 5, None)
    requires Pairs([task], query.title) == [Pair(task, task)]
    ensures Selected(s, query) == Ok(Some(c))
  {
    SharedStatuses(task.summary);
    hide StatusSet, Pairs;
    assert HasOpenEpic(s, "E-1") by {
      assert s.board[0].key == "E-1" && IsOpenEpic(s, s.board[0]);
    }
    assert s.children[1..] == [];
    assert Children(s, s.children) == [task];
    assert LastReview(s, "T-1") == Some(5) by {
      OneMove(5, "shared", StatusSet(s.columns, REVIEWED_COLUMNS));
    }
    var q := Pair(task, task);
    assert Qualifies(s, query, q) && CandidateOf(s, q) == c;
    assert [q][1..] == [] && Eligible(s, query, []) == [];
    assert Eligible(s, query, [q]) == [c];
    OldestOfOne(c);
  }
}
