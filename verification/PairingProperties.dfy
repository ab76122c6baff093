/** What the pairing of `Pairing` means, and that it does not look at statuses. */
module PairingProperties {
  import opened Wrappers
  import opened Text
  import opened Ordering
  import opened Pairing

  /** The pitch paired with a calculation, if any. */
  ghost function PartnerOf(pairs: seq<Pair>, calculation: Issue): Option<Issue> {
    if q :| q in pairs && q.calculation == calculation then Some(q.pitch) else None
  }

  /** Keys of the pitches that older siblings of the calculation took. */
  ghost function Taken(pairs: seq<Pair>, calculation: Issue): set<string> {
    set q | q in pairs && q.calculation.parent == calculation.parent && Older(q.calculation, calculation) :: q.pitch.key
  }

  /** A one-to-one matching: no calculation and no pitch occurs in two pairs. */
  predicate OneToOne(pairs: seq<Pair>) {
    forall i, j :: 0 <= i < j < |pairs| ==>
      pairs[i].calculation.key != pairs[j].calculation.key && pairs[i].pitch.key != pairs[j].pitch.key
  }

  predicate Proper(children: seq<Issue>, title: string, q: Pair) {
    && q.calculation in children && q.pitch in children
    && q.calculation.parent.Some? && q.pitch.parent == q.calculation.parent
    && Contains(q.calculation.summary, title) && Contains(q.pitch.summary, PREREQUISITE_TITLE)
    && Distance(q.calculation, q.pitch) <= PAIR_WINDOW
  }

  // ---------------------------------------------------------------- one family

  lemma {:induction false} GreedyMembers(calculations: seq<Issue>, pitches: seq<Issue>, used: set<string>)
    requires Ascending(calculations, Older)
    ensures var pairs := Greedy(calculations, pitches, used);
            && (forall q :: q in pairs ==> q.calculation in calculations && q.pitch in pitches && Open(q.calculation, q.pitch, used))
            && (forall i, j :: 0 <= i < j < |pairs| ==>
                  pairs[i].pitch.key != pairs[j].pitch.key && Older(pairs[i].calculation, pairs[j].calculation))
    decreases |calculations|
  {
    if calculations != [] {
      var c, rest := calculations[0], calculations[1..];
      var choice := Choice(c, pitches, used);
      if choice.None? {
        GreedyMembers(rest, pitches, used);
      } else {
        GreedyMembers(rest, pitches, used + {choice.value.key});
        var pairs, tail := Greedy(calculations, pitches, used), Greedy(rest, pitches, used + {choice.value.key});
        forall j | 0 <= j < |tail| ensures tail[j].pitch.key != choice.value.key && Older(c, tail[j].calculation) {
          assert tail[j] in tail;
          RestIsYounger(calculations, tail[j].calculation);
        }
        assert pairs == [Pair(choice.value, c)] + tail;
      }
    }
  }

  lemma RestIsYounger(calculations: seq<Issue>, x: Issue)
    requires calculations != [] && Ascending(calculations, Older) && x in calculations[1..]
    ensures Older(calculations[0], x)
  {
    var k :| 0 <= k < |calculations| - 1 && calculations[1..][k] == x;
    assert calculations[k + 1] == x;
  }

  predicate SameParent(issues: seq<Issue>, parent: Option<string>) {
    forall x :: x in issues ==> x.parent == parent
  }

  /** Nothing is taken before the oldest calculation. */
  lemma FirstExplained(calculations: seq<Issue>, pitches: seq<Issue>, used: set<string>)
    requires calculations != [] && Ascending(calculations, Older)
    ensures var c, pairs := calculations[0], Greedy(calculations, pitches, used);
            Taken(pairs, c) == {} && PartnerOf(pairs, c) == Choice(c, pitches, used)
  {
    OlderIsStrict();
    var c, pairs := calculations[0], Greedy(calculations, pitches, used);
    GreedyMembers(calculations, pitches, used);
    forall q | q in pairs ensures !Older(q.calculation, c) {
      if q.calculation != c {
        assert calculations == [c] + calculations[1..];
        RestIsYounger(calculations, q.calculation);
      }
    }
    var choice := Choice(c, pitches, used);
    if choice.Some? {
      assert pairs[0] == Pair(choice.value, c);
      forall q | q in pairs && q.calculation == c ensures q == pairs[0] {
        var i :| 0 <= i < |pairs| && pairs[i] == q;
        if i > 0 {
          assert Older(pairs[0].calculation, pairs[i].calculation);
        }
      }
      assert pairs[0] in pairs;
    } else {
      GreedyMembers(calculations[1..], pitches, used);
      forall q | q in pairs ensures q.calculation != c {
        RestIsYounger(calculations, q.calculation);
      }
    }
  }

  /** Dropping a pair of another, older calculation. */
  lemma LaterExplained(first: Pair, tail: seq<Pair>, c: Issue, used: set<string>)
    requires Older(first.calculation, c) && first.calculation.parent == c.parent && first.calculation != c
    requires forall i, j :: 0 <= i < j < |tail| ==> tail[i].calculation != tail[j].calculation
    ensures used + Taken([first] + tail, c) == used + {first.pitch.key} + Taken(tail, c)
    ensures PartnerOf([first] + tail, c) == PartnerOf(tail, c)
  {
    var pairs := [first] + tail;
    assert forall q :: q in pairs <==> q == first || q in tail;
    forall q | q in pairs && q.calculation == c ensures q in tail {
    }
  }

  lemma {:induction false} GreedyExplained(calculations: seq<Issue>, pitches: seq<Issue>, used: set<string>, k: nat)
    requires k < |calculations| && Ascending(calculations, Older) && SameParent(calculations, calculations[k].parent)
    ensures var c, pairs := calculations[k], Greedy(calculations, pitches, used);
            PartnerOf(pairs, c) == Choice(c, pitches, used + Taken(pairs, c))
    decreases k
  {
    if k == 0 {
      FirstExplained(calculations, pitches, used);
      assert used + {} == used;
    } else {
      OlderIsStrict();
      var rest := calculations[1..];
      assert forall x :: x in rest ==> x in calculations;
      var choice := Choice(calculations[0], pitches, used);
      if choice.None? {
        GreedyExplained(rest, pitches, used, k - 1);
      } else {
        var taken := used + {choice.value.key};
        GreedyExplained(rest, pitches, taken, k - 1);
        GreedyMembers(rest, pitches, taken);
        hide Choice, Taken, PartnerOf, Open;
        LaterExplained(Pair(choice.value, calculations[0]), Greedy(rest, pitches, taken), calculations[k], used);
      }
    }
  }

  // ---------------------------------------------------------------- all families

  lemma FamilySorted(children: seq<Issue>, parent: string, title: string) returns (calculations: seq<Issue>, pitches: seq<Issue>)
    requires DistinctKeys(children)
    ensures Family(children, parent, title) == Greedy(calculations, pitches, {})
    ensures pitches == Titled(Siblings(children, parent), PREREQUISITE_TITLE)
    ensures Ascending(calculations, Older) && SameParent(calculations, Some(parent))
    ensures forall x :: x in calculations <==> x in children && x.parent == Some(parent) && Contains(x.summary, title)
    ensures forall x :: x in pitches <==> x in children && x.parent == Some(parent) && Contains(x.summary, PREREQUISITE_TITLE)
  {
    var siblings := Siblings(children, parent);
    SiblingsHas(children, parent);
    SiblingsDistinct(children, parent);
    TitledHas(siblings, title);
    TitledHas(siblings, PREREQUISITE_TITLE);
    TitledDistinct(siblings, title);
    DistinctComparable(Titled(siblings, title));
    OlderIsStrict();
    SortAscending(Titled(siblings, title), Older);
    SortSame(Titled(siblings, title), Older);
    calculations, pitches := Sort(Titled(siblings, title), Older), Titled(siblings, PREREQUISITE_TITLE);
  }

  lemma FamilyMembers(children: seq<Issue>, parent: string, title: string)
    requires DistinctKeys(children)
    ensures forall q :: q in Family(children, parent, title) ==> Proper(children, title, q) && q.calculation.parent == Some(parent)
    ensures OneToOne(Family(children, parent, title))
  {
    var calculations, pitches := FamilySorted(children, parent, title);
    GreedyMembers(calculations, pitches, {});
    var pairs := Family(children, parent, title);
    hide Family, Greedy, Ascending;
    OlderIsStrict();
    forall i, j | 0 <= i < j < |pairs| ensures pairs[i].calculation.key != pairs[j].calculation.key {
      assert pairs[i] in pairs && pairs[j] in pairs;
      assert pairs[i].calculation != pairs[j].calculation;
      KeyDecides(children, pairs[i].calculation, pairs[j].calculation);
    }
  }

  lemma KeyDecides(children: seq<Issue>, x: Issue, y: Issue)
    requires DistinctKeys(children) && x in children && y in children && x != y
    ensures x.key != y.key
  {
  }

  lemma {:induction false} FamiliesHas(parents: seq<string>, children: seq<Issue>, title: string)
    ensures forall q :: q in Families(parents, children, title) <==> exists p :: p in parents && q in Family(children, p, title)
  {
    if parents != [] {
      FamiliesHas(parents[1..], children, title);
      assert parents == [parents[0]] + parents[1..];
    }
  }

  lemma {:induction false} FamiliesOneToOne(parents: seq<string>, children: seq<Issue>, title: string)
    requires DistinctKeys(children) && Ascending(parents, StringBefore)
    ensures OneToOne(Families(parents, children, title))
  {
    if parents != [] {
      FamilyMembers(children, parents[0], title);
      FamiliesOneToOne(parents[1..], children, title);
      FamiliesHas(parents[1..], children, title);
      var here, there := Family(children, parents[0], title), Families(parents[1..], children, title);
      forall q, r | q in here && r in there ensures q.calculation.key != r.calculation.key && q.pitch.key != r.pitch.key {
        var p :| p in parents[1..] && r in Family(children, p, title);
        OtherFamily(parents, children, title, p, q, r);
      }
      ConcatOneToOne(here, there);
    }
  }

  lemma OtherFamily(parents: seq<string>, children: seq<Issue>, title: string, p: string, q: Pair, r: Pair)
    requires DistinctKeys(children) && parents != [] && Ascending(parents, StringBefore) && p in parents[1..]
    requires q in Family(children, parents[0], title) && r in Family(children, p, title)
    ensures q.calculation.key != r.calculation.key && q.pitch.key != r.pitch.key
  {
    FamilyMembers(children, parents[0], title);
    FamilyMembers(children, p, title);
    var k :| 0 <= k < |parents| - 1 && parents[1..][k] == p;
    assert parents[k + 1] == p && StringBefore(parents[0], p);
    StringBeforeTotal(parents[0], p);
    KeyDecides(children, q.calculation, r.calculation);
    KeyDecides(children, q.pitch, r.pitch);
  }

  lemma ConcatOneToOne(here: seq<Pair>, there: seq<Pair>)
    requires OneToOne(here) && OneToOne(there)
    requires forall q, r :: q in here && r in there ==> q.calculation.key != r.calculation.key && q.pitch.key != r.pitch.key
    ensures OneToOne(here + there)
  {
  }

  /** The pairing is a one-to-one matching of calculation and prerequisite siblings created within
      an hour of each other. */
  lemma PairsMatch(children: seq<Issue>, title: string)
    requires DistinctKeys(children)
    ensures OneToOne(Pairs(children, title))
    ensures forall q :: q in Pairs(children, title) ==> Proper(children, title, q)
  {
    var parents := Sort(Parents(children), StringBefore);
    ParentsAscend(children);
    FamiliesOneToOne(parents, children, title);
    FamiliesHas(parents, children, title);
    forall q | q in Pairs(children, title) ensures Proper(children, title, q) {
      var p :| p in parents && q in Family(children, p, title);
      FamilyMembers(children, p, title);
    }
  }

  lemma PairsOfFamily(children: seq<Issue>, title: string, c: Issue)
    requires DistinctKeys(children) && c in children && c.parent.Some?
    ensures forall q :: q in Pairs(children, title) && q.calculation.parent == c.parent <==>
                        q in Family(children, c.parent.value, title)
  {
    var parents := Sort(Parents(children), StringBefore);
    SortSame(Parents(children), StringBefore);
    ParentsHas(children);
    assert c.parent.value in parents;
    FamiliesHas(parents, children, title);
    FamilyMembers(children, c.parent.value, title);
    hide Family, Families, Proper, OneToOne;
    forall q | q in Pairs(children, title) && q.calculation.parent == c.parent ensures q in Family(children, c.parent.value, title) {
      var p :| p in parents && q in Family(children, p, title);
      FamilyMembers(children, p, title);
    }
  }

  /** Every decision, from the outcome alone: the calculation has the sibling pitch that is strictly
      nearest among those within the hour that older siblings left, and none if there is no such
      pitch, be it that nothing is left or that two tie. */
  lemma PairingExplained(children: seq<Issue>, title: string, c: Issue)
    requires DistinctKeys(children) && c in children && c.parent.Some? && Contains(c.summary, title)
    ensures PartnerOf(Pairs(children, title), c)
         == Choice(c, Titled(Siblings(children, c.parent.value), PREREQUISITE_TITLE), Taken(Pairs(children, title), c))
  {
    var pairs, family := Pairs(children, title), Family(children, c.parent.value, title);
    var calculations, pitches := FamilySorted(children, c.parent.value, title);
    PairsOfFamily(children, title, c);
    FamilyMembers(children, c.parent.value, title);
    assert c in calculations;
    var k :| 0 <= k < |calculations| && calculations[k] == c;
    GreedyExplained(calculations, pitches, {}, k);
    hide Family, Pairs, Greedy, Choice, Proper;
    SameView(pairs, family, c);
    assert {} + Taken(family, c) == Taken(family, c);
  }

  // ---------------------------------------------------------------- the same without the fold's own terms

  /** How far apart in time. */
  function Gap(a: Issue, b: Issue): int {
    if a.createdAt > b.createdAt then a.createdAt - b.createdAt else b.createdAt - a.createdAt
  }

  /** The pair served an issue created before `c`, or at the same time with a key that comes first. */
  predicate ServedBefore(q: Pair, c: Issue) {
    && q.calculation.parent == c.parent
    && (q.calculation.createdAt < c.createdAt || (q.calculation.createdAt == c.createdAt && StringBefore(q.calculation.key, c.key)))
  }

  /** A prerequisite sibling created within an hour that no older sibling was given. */
  predicate Free(children: seq<Issue>, pairs: seq<Pair>, c: Issue, p: Issue) {
    && p in children && p.parent == c.parent && Contains(p.summary, "визуализация и копирайты")
    && Gap(c, p) <= 3_600_000_000
    && forall q :: q in pairs && ServedBefore(q, c) ==> q.pitch.key != p.key
  }

  /** A calculation is paired with the one free prerequisite that is nearer to it in time than every other
      free one; without exactly one such it has none. */
  lemma PairingMeaning(children: seq<Issue>, title: string, c: Issue, p: Issue)
    requires DistinctKeys(children) && c in children && c.parent.Some? && Contains(c.summary, title)
    ensures var pairs := Pairs(children, title);
            PartnerOf(pairs, c) == Some(p)
            <==> Free(children, pairs, c, p)
                 && forall o :: o in children && o != p && Free(children, pairs, c, o) ==> Gap(c, p) < Gap(c, o)
  {
    var pairs := Pairs(children, title);
    var siblings := Siblings(children, c.parent.value);
    var pitches, used := Titled(siblings, PREREQUISITE_TITLE), Taken(pairs, c);
    PairingExplained(children, title, c);
    SiblingsHas(children, c.parent.value);
    SiblingsDistinct(children, c.parent.value);
    TitledHas(siblings, PREREQUISITE_TITLE);
    TitledDistinct(siblings, PREREQUISITE_TITLE);
    hide Pairs, Siblings, Titled, Contains, PartnerOf, StringBefore;
    forall o ensures o in pitches && Open(c, o, used) <==> Free(children, pairs, c, o) {
      FreeIsOpen(children, pairs, c, o);
    }
    assert forall o :: Free(children, pairs, c, o) ==> o in children;
    ChoiceIs(c, pitches, used, p);
    hide Free, Open, Choice;
  }

  lemma FreeIsOpen(children: seq<Issue>, pairs: seq<Pair>, c: Issue, o: Issue)
    ensures Free(children, pairs, c, o) <==>
              && o in children && o.parent == c.parent && Contains(o.summary, PREREQUISITE_TITLE)
              && Open(c, o, Taken(pairs, c))
  {
    hide Contains, StringBefore;
    assert Distance(c, o) == Gap(c, o);
    assert forall q :: q in pairs ==> (ServedBefore(q, c) <==> q.calculation.parent == c.parent && Older(q.calculation, c));
  }

  /** The choice, by issue instead of by position. */
  lemma ChoiceIs(c: Issue, pitches: seq<Issue>, used: set<string>, p: Issue)
    requires DistinctKeys(pitches)
    ensures Choice(c, pitches, used) == Some(p)
            <==> p in pitches && Open(c, p, used)
                 && forall o :: o in pitches && o != p && Open(c, o, used) ==> Gap(c, p) < Gap(c, o)
  {
    hide Open;
    forall o ensures Distance(c, o) == Gap(c, o) {
    }
    if Choice(c, pitches, used) == Some(p) {
      var i: nat :| UniqueNearest(c, pitches, used, i);
      forall o | o in pitches && o != p && Open(c, o, used) ensures Gap(c, p) < Gap(c, o) {
        var j :| 0 <= j < |pitches| && pitches[j] == o;
        assert j != i;
      }
    }
    if p in pitches && Open(c, p, used) && forall o :: o in pitches && o != p && Open(c, o, used) ==> Gap(c, p) < Gap(c, o) {
      var i :| 0 <= i < |pitches| && pitches[i] == p;
      forall j | 0 <= j < |pitches| && j != i && Open(c, pitches[j], used) ensures Distance(c, p) < Distance(c, pitches[j]) {
        assert pitches[j].key != p.key && pitches[j] in pitches;
      }
      assert UniqueNearest(c, pitches, used, i);
    }
  }

  lemma SameView(pairs: seq<Pair>, family: seq<Pair>, c: Issue)
    requires forall q :: q in pairs && q.calculation.parent == c.parent <==> q in family
    requires OneToOne(family)
    ensures Taken(pairs, c) == Taken(family, c) && PartnerOf(pairs, c) == PartnerOf(family, c)
  {
    forall q, r | q in family && r in family && q.calculation == r.calculation ensures q == r {
    }
    if q :| q in pairs && q.calculation == c {
      assert q in family;
    }
  }

  // ---------------------------------------------------------------- statuses play no part

  /** The issue after its status moved, if it is the one with that key. */
  function Moved(issue: Issue, key: string, status: string): Issue {
    if issue.key == key then issue.(status := status) else issue
  }

  function AllMoved(issues: seq<Issue>, key: string, status: string): (r: seq<Issue>)
    ensures |r| == |issues| && forall i :: 0 <= i < |r| ==> r[i] == Moved(issues[i], key, status)
  {
    if issues == [] then [] else [Moved(issues[0], key, status)] + AllMoved(issues[1..], key, status)
  }

  function PairsMoved(pairs: seq<Pair>, key: string, status: string): (r: seq<Pair>)
    ensures |r| == |pairs|
    ensures forall i :: 0 <= i < |r| ==> r[i] == Pair(Moved(pairs[i].pitch, key, status), Moved(pairs[i].calculation, key, status))
  {
    if pairs == [] then []
    else [Pair(Moved(pairs[0].pitch, key, status), Moved(pairs[0].calculation, key, status))] + PairsMoved(pairs[1..], key, status)
  }

  lemma {:induction false} SiblingsBlind(children: seq<Issue>, parent: string, key: string, status: string)
    ensures Siblings(AllMoved(children, key, status), parent) == AllMoved(Siblings(children, parent), key, status)
  {
    if children != [] {
      SiblingsBlind(children[1..], parent, key, status);
      assert AllMoved(children, key, status)[1..] == AllMoved(children[1..], key, status);
    }
  }

  lemma {:induction false} TitledBlind(issues: seq<Issue>, title: string, key: string, status: string)
    ensures Titled(AllMoved(issues, key, status), title) == AllMoved(Titled(issues, title), key, status)
  {
    if issues != [] {
      TitledBlind(issues[1..], title, key, status);
      assert AllMoved(issues, key, status)[1..] == AllMoved(issues[1..], key, status);
    }
  }

  lemma {:induction false} ParentsBlind(children: seq<Issue>, key: string, status: string)
    ensures Parents(AllMoved(children, key, status)) == Parents(children)
  {
    if children != [] {
      var n := |children| - 1;
      ParentsBlind(children[..n], key, status);
      assert AllMoved(children, key, status)[..n] == AllMoved(children[..n], key, status);
    }
  }

  lemma {:induction false} InsertBlind(x: Issue, issues: seq<Issue>, key: string, status: string)
    ensures Insert(Moved(x, key, status), AllMoved(issues, key, status), Older) == AllMoved(Insert(x, issues, Older), key, status)
  {
    if issues != [] && Older(issues[0], x) {
      InsertBlind(x, issues[1..], key, status);
      assert AllMoved(issues, key, status)[1..] == AllMoved(issues[1..], key, status);
    }
  }

  lemma {:induction false} SortBlind(issues: seq<Issue>, key: string, status: string)
    ensures Sort(AllMoved(issues, key, status), Older) == AllMoved(Sort(issues, Older), key, status)
  {
    if issues != [] {
      SortBlind(issues[1..], key, status);
      InsertBlind(issues[0], Sort(issues[1..], Older), key, status);
      assert AllMoved(issues, key, status)[1..] == AllMoved(issues[1..], key, status);
    }
  }

  lemma NearestBlind(c: Issue, pitches: seq<Issue>, used: set<string>, key: string, status: string, i: nat)
    ensures UniqueNearest(c, pitches, used, i)
       <==> UniqueNearest(Moved(c, key, status), AllMoved(pitches, key, status), used, i)
  {
    hide Open, Distance, Moved;
    var moved := AllMoved(pitches, key, status);
    forall j | 0 <= j < |pitches|
      ensures Open(c, pitches[j], used) == Open(Moved(c, key, status), moved[j], used)
      ensures Distance(c, pitches[j]) == Distance(Moved(c, key, status), moved[j])
    {
      OpenBlind(c, pitches[j], used, key, status);
    }
    hide AllMoved;
  }

  lemma OpenBlind(c: Issue, pitch: Issue, used: set<string>, key: string, status: string)
    ensures Open(c, pitch, used) == Open(Moved(c, key, status), Moved(pitch, key, status), used)
    ensures Distance(c, pitch) == Distance(Moved(c, key, status), Moved(pitch, key, status))
  {
  }

  lemma ChoiceBlind(c: Issue, pitches: seq<Issue>, used: set<string>, key: string, status: string)
    ensures var before, after := Choice(c, pitches, used), Choice(Moved(c, key, status), AllMoved(pitches, key, status), used);
            if before.None? then after.None? else after == Some(Moved(before.value, key, status))
  {
    forall i: nat ensures UniqueNearest(c, pitches, used, i) <==>
                          UniqueNearest(Moved(c, key, status), AllMoved(pitches, key, status), used, i) {
      NearestBlind(c, pitches, used, key, status, i);
    }
    hide UniqueNearest, Moved;
    if i: nat :| UniqueNearest(c, pitches, used, i) {
      InRange(c, pitches, used, i);
    }
  }

  lemma InRange(c: Issue, pitches: seq<Issue>, used: set<string>, i: nat)
    requires UniqueNearest(c, pitches, used, i)
    ensures i < |pitches|
  {
  }

  lemma {:induction false} GreedyBlind(calculations: seq<Issue>, pitches: seq<Issue>, used: set<string>, key: string, status: string)
    ensures Greedy(AllMoved(calculations, key, status), AllMoved(pitches, key, status), used)
         == PairsMoved(Greedy(calculations, pitches, used), key, status)
    decreases |calculations|
  {
    if calculations != [] {
      ChoiceBlind(calculations[0], pitches, used, key, status);
      hide Choice;
      assert AllMoved(calculations, key, status)[1..] == AllMoved(calculations[1..], key, status);
      var c := Choice(calculations[0], pitches, used);
      GreedyBlind(calculations[1..], pitches, if c.None? then used else used + {c.value.key}, key, status);
    }
  }

  lemma FamilyBlind(children: seq<Issue>, parent: string, title: string, key: string, status: string)
    ensures Family(AllMoved(children, key, status), parent, title) == PairsMoved(Family(children, parent, title), key, status)
  {
    var siblings := Siblings(children, parent);
    SiblingsBlind(children, parent, key, status);
    TitledBlind(siblings, title, key, status);
    TitledBlind(siblings, PREREQUISITE_TITLE, key, status);
    SortBlind(Titled(siblings, title), key, status);
    GreedyBlind(Sort(Titled(siblings, title), Older), Titled(siblings, PREREQUISITE_TITLE), {}, key, status);
  }

  lemma MovedConcat(a: seq<Pair>, b: seq<Pair>, key: string, status: string)
    ensures PairsMoved(a + b, key, status) == PairsMoved(a, key, status) + PairsMoved(b, key, status)
  {
    hide Moved;
  }

  lemma {:induction false} FamiliesBlind(parents: seq<string>, children: seq<Issue>, title: string, key: string, status: string)
    ensures Families(parents, AllMoved(children, key, status), title) == PairsMoved(Families(parents, children, title), key, status)
  {
    hide Family, Moved, AllMoved;
    if parents != [] {
      FamilyBlind(children, parents[0], title, key, status);
      FamiliesBlind(parents[1..], children, title, key, status);
      MovedConcat(Family(children, parents[0], title), Families(parents[1..], children, title), key, status);
    }
  }

  /** When an issue changes its status, the same issues stay paired. */
  lemma StatusBlind(children: seq<Issue>, title: string, key: string, status: string)
    ensures Pairs(AllMoved(children, key, status), title) == PairsMoved(Pairs(children, title), key, status)
  {
    ParentsBlind(children, key, status);
    FamiliesBlind(Sort(Parents(children), StringBefore), children, title, key, status);
  }
}
