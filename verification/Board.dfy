/** What `select_candidate` reads off the board configuration and a changelog. */
module Board {
  import opened Wrappers

  datatype Column = Column(name: string, statuses: seq<string>)

  /** One history entry of a changelog: the statuses it moved the issue to. */
  datatype Change = Change(at: int, moves: seq<string>)

  // ---------------------------------------------------------------- board columns

  /** Of the first `n` columns, `i` is the last with its name. */
  predicate LastOf(columns: seq<Column>, i: nat, n: nat)
    requires n <= |columns|
  {
    i < n && forall j :: i < j < n ==> columns[j].name != columns[i].name
  }

  /** Of columns with one name the last counts. */
  predicate HasStatus(columns: seq<Column>, names: set<string>, status: string) {
    exists i: nat | i < |columns| :: LastOf(columns, i, |columns|) && columns[i].name in names && status in columns[i].statuses
  }

  function StatusesFor(columns: map<string, set<string>>, names: set<string>): set<string> {
    set name, status | name in columns && name in names && status in columns[name] :: status
  }

  /** The statuses of the columns with these names. */
  function StatusSet(columns: seq<Column>, names: set<string>): set<string> {
    set i, status | 0 <= i < |columns| && status in columns[i].statuses && HasStatus(columns, names, status) :: status
  }

  lemma StatusSetHas(columns: seq<Column>, names: set<string>, status: string)
    ensures status in StatusSet(columns, names) <==> HasStatus(columns, names, status)
  {
    hide LastOf;
  }

  function Elements(statuses: seq<string>): set<string> {
    set status | status in statuses
  }

  /** The entry comes from the last of the first `n` columns with the name. */
  predicate Entry(columns: seq<Column>, name: string, statuses: set<string>, n: nat)
    requires n <= |columns|
  {
    exists k: nat | k < n :: LastOf(columns, k, n) && columns[k].name == name && statuses == Elements(columns[k].statuses)
  }

  predicate Filled(columns: seq<Column>, r: map<string, set<string>>, n: nat)
    requires n <= |columns|
  {
    (forall name :: name in r ==> Entry(columns, name, r[name], n)) && (forall k :: 0 <= k < n ==> columns[k].name in r)
  }

  method ColumnStatuses(columns: seq<Column>) returns (r: map<string, set<string>>)
    ensures forall names :: StatusesFor(r, names) == StatusSet(columns, names)
  {
    hide StatusSet, StatusesFor, Filled;
    r := map[];
    NothingFilled(columns);
    for i := 0 to |columns|
      invariant Filled(columns, r, i)
    {
      FillNext(columns, r, i);
      r := r[columns[i].name := Elements(columns[i].statuses)];
    }
    forall names ensures StatusesFor(r, names) == StatusSet(columns, names) {
      FilledReads(columns, r, names);
    }
  }

  lemma NothingFilled(columns: seq<Column>)
    ensures Filled(columns, map[], 0)
  {
  }

  lemma FillNext(columns: seq<Column>, r: map<string, set<string>>, i: nat)
    requires i < |columns| && Filled(columns, r, i)
    ensures Filled(columns, r[columns[i].name := Elements(columns[i].statuses)], i + 1)
  {
    hide Elements, Entry;
    var name := columns[i].name;
    var next := r[name := Elements(columns[i].statuses)];
    forall other | other in next ensures Entry(columns, other, next[other], i + 1) {
      if other == name {
        EntryLast(columns, i);
      } else {
        EntryStays(columns, other, r[other], i);
      }
    }
  }

  lemma EntryLast(columns: seq<Column>, i: nat)
    requires i < |columns|
    ensures Entry(columns, columns[i].name, Elements(columns[i].statuses), i + 1)
  {
    assert LastOf(columns, i, i + 1);
  }

  lemma EntryStays(columns: seq<Column>, other: string, statuses: set<string>, i: nat)
    requires i < |columns| && Entry(columns, other, statuses, i) && other != columns[i].name
    ensures Entry(columns, other, statuses, i + 1)
  {
    var k: nat :| k < i && LastOf(columns, k, i) && columns[k].name == other && statuses == Elements(columns[k].statuses);
    assert LastOf(columns, k, i + 1);
  }

  lemma FilledReads(columns: seq<Column>, r: map<string, set<string>>, names: set<string>)
    requires Filled(columns, r, |columns|)
    ensures StatusesFor(r, names) == StatusSet(columns, names)
  {
    hide LastOf, HasStatus;
    forall status ensures status in StatusesFor(r, names) ==> status in StatusSet(columns, names) {
      if name :| name in r && name in names && status in r[name] {
        EntryRead(columns, name, r[name], names, status);
      }
    }
    forall status | status in StatusSet(columns, names) ensures status in StatusesFor(r, names) {
      LastIsRead(columns, r, names, status);
    }
  }

  lemma EntryRead(columns: seq<Column>, name: string, statuses: set<string>, names: set<string>, status: string)
    requires Entry(columns, name, statuses, |columns|) && name in names && status in statuses
    ensures HasStatus(columns, names, status) && exists i :: 0 <= i < |columns| && status in columns[i].statuses
  {
  }

  lemma LastIsRead(columns: seq<Column>, r: map<string, set<string>>, names: set<string>, status: string)
    requires Filled(columns, r, |columns|) && HasStatus(columns, names, status)
    ensures status in StatusesFor(r, names)
  {
    var i: nat :| i < |columns| && LastOf(columns, i, |columns|) && columns[i].name in names && status in columns[i].statuses;
    var name := columns[i].name;
    assert name in r && Entry(columns, name, r[name], |columns|);
    var k: nat :| k < |columns| && LastOf(columns, k, |columns|) && columns[k].name == name && r[name] == Elements(columns[k].statuses);
    assert k == i && status in r[name];
    assert name in r && name in names && status in r[name];
  }

  // ---------------------------------------------------------------- the pitch's review

  predicate MovesTo(change: Change, eligible: set<string>) {
    exists k :: 0 <= k < |change.moves| && change.moves[k] in eligible
  }

  predicate Matches(histories: seq<Change>, eligible: set<string>, at: int) {
    exists i :: 0 <= i < |histories| && MovesTo(histories[i], eligible) && histories[i].at == at
  }

  /** The last move to one of the statuses; entries need not be in order. */
  ghost predicate IsLatest(histories: seq<Change>, eligible: set<string>, r: Option<int>) {
    match r
    case None => forall at :: !Matches(histories, eligible, at)
    case Some(t) => Matches(histories, eligible, t) && forall at :: Matches(histories, eligible, at) ==> at <= t
  }

  lemma MatchesNext(histories: seq<Change>, eligible: set<string>, i: nat)
    requires i < |histories|
    ensures forall t :: Matches(histories[..i + 1], eligible, t) <==>
                        Matches(histories[..i], eligible, t) || (t == histories[i].at && MovesTo(histories[i], eligible))
  {
    hide MovesTo;
    var shorter, longer := histories[..i], histories[..i + 1];
    assert longer == shorter + [histories[i]];
    forall t | Matches(shorter, eligible, t) ensures Matches(longer, eligible, t) {
      var a :| 0 <= a < |shorter| && MovesTo(shorter[a], eligible) && shorter[a].at == t;
      assert longer[a] == shorter[a];
    }
    if MovesTo(histories[i], eligible) {
      assert longer[i] == histories[i];
    }
  }

  function Latest(histories: seq<Change>, eligible: set<string>): Option<int> {
    if histories == [] then None
    else
      var n := |histories| - 1;
      var earlier := Latest(histories[..n], eligible);
      if MovesTo(histories[n], eligible) && (earlier.None? || earlier.value < histories[n].at) then Some(histories[n].at) else earlier
  }

  lemma {:induction false} LatestIs(histories: seq<Change>, eligible: set<string>)
    ensures IsLatest(histories, eligible, Latest(histories, eligible))
  {
    if histories != [] {
      var n := |histories| - 1;
      LatestIs(histories[..n], eligible);
      MatchesNext(histories, eligible, n);
      assert histories[..n + 1] == histories;
      hide Matches, MovesTo;
      assert forall t :: Matches(histories, eligible, t) <==>
                         Matches(histories[..n], eligible, t) || (t == histories[n].at && MovesTo(histories[n], eligible));
    }
  }

  lemma LatestUnique(histories: seq<Change>, eligible: set<string>, r: Option<int>)
    requires IsLatest(histories, eligible, r)
    ensures r == Latest(histories, eligible)
  {
    LatestIs(histories, eligible);
  }

  method LatestTransition(histories: seq<Change>, eligible: set<string>) returns (r: Option<int>)
    ensures r == Latest(histories, eligible)
  {
    var matches: seq<int> := [];
    for i := 0 to |histories|
      invariant forall t :: t in matches <==> Matches(histories[..i], eligible, t)
    {
      ghost var before := matches;
      for j := 0 to |histories[i].moves|
        invariant forall t :: t in matches <==>
                    t in before || (t == histories[i].at && exists k :: 0 <= k < j && histories[i].moves[k] in eligible)
      {
        if histories[i].moves[j] in eligible {
          matches := matches + [histories[i].at];
        }
      }
      MatchesNext(histories, eligible, i);
    }
    assert histories[..|histories|] == histories;
    if matches == [] {
      LatestUnique(histories, eligible, None);
      return None;
    }
    var most := matches[0];
    for i := 1 to |matches|
      invariant most in matches && forall k :: 0 <= k < i ==> matches[k] <= most
    {
      if matches[i] > most {
        most := matches[i];
      }
    }
    r := Some(most);
    LatestUnique(histories, eligible, r);
  }
}
