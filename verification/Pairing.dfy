/** `_pair_children`: calculation tasks matched greedily with the nearest prerequisite sibling. */
module Pairing {
  import opened Wrappers
  import opened Text
  import opened Ordering
  import Sequences

  /** `summary` and `issueType` are normalised; times are in microseconds. */
  datatype Issue = Issue(key: string, summary: string, issueType: string, status: string, components: set<string>,
                         createdAt: int, parent: Option<string>)

  datatype Pair = Pair(pitch: Issue, calculation: Issue)

  const PREREQUISITE_TITLE := "визуализация и копирайты"
  const PAIR_WINDOW: int := 3_600_000_000

  function Distance(a: Issue, b: Issue): nat {
    if a.createdAt <= b.createdAt then b.createdAt - a.createdAt else a.createdAt - b.createdAt
  }

  /** The order in which calculations are served. */
  predicate Older(a: Issue, b: Issue) {
    a.createdAt < b.createdAt || (a.createdAt == b.createdAt && StringBefore(a.key, b.key))
  }

  predicate DistinctKeys(issues: seq<Issue>) {
    forall i, j :: 0 <= i < j < |issues| ==> issues[i].key != issues[j].key
  }

  function Siblings(children: seq<Issue>, parent: string): seq<Issue> {
    if children == [] then []
    else (if children[0].parent == Some(parent) then [children[0]] else []) + Siblings(children[1..], parent)
  }

  function Titled(issues: seq<Issue>, title: string): seq<Issue> {
    if issues == [] then []
    else (if Contains(issues[0].summary, title) then [issues[0]] else []) + Titled(issues[1..], title)
  }

  /** The parents of the children, each once. */
  function Parents(children: seq<Issue>): seq<string> {
    if children == [] then []
    else
      var earlier := Parents(children[..|children| - 1]);
      var parent := children[|children| - 1].parent;
      if parent.Some? && parent.value !in earlier then earlier + [parent.value] else earlier
  }

  // ---------------------------------------------------------------- one calculation's choice

  predicate Open(calculation: Issue, pitch: Issue, used: set<string>) {
    pitch.key !in used && Distance(calculation, pitch) <= PAIR_WINDOW
  }

  /** Strictly nearer than every other open pitch. */
  predicate UniqueNearest(calculation: Issue, pitches: seq<Issue>, used: set<string>, i: nat) {
    && i < |pitches|
    && Open(calculation, pitches[i], used)
    && forall j :: 0 <= j < |pitches| && j != i && Open(calculation, pitches[j], used) ==>
         Distance(calculation, pitches[i]) < Distance(calculation, pitches[j])
  }

  ghost function Choice(calculation: Issue, pitches: seq<Issue>, used: set<string>): (r: Option<Issue>)
    ensures r.Some? <==> exists i: nat :: UniqueNearest(calculation, pitches, used, i)
    ensures forall i: nat :: UniqueNearest(calculation, pitches, used, i) ==> r == Some(pitches[i])
  {
    if i: nat :| UniqueNearest(calculation, pitches, used, i) then Some(pitches[i]) else None
  }

  predicate Rising(positions: seq<nat>) {
    forall k, l :: 0 <= k < l < |positions| ==> positions[k] < positions[l]
  }

  /** The list comprehensions around `min`, on positions in `pitches`. */
  method Nearest(calculation: Issue, pitches: seq<Issue>, used: set<string>) returns (r: Option<Issue>)
    ensures r == Choice(calculation, pitches, used)
  {
    var options: seq<nat> := [];
    for i := 0 to |pitches|
      invariant Rising(options) && forall k :: 0 <= k < |options| ==> options[k] < i
      invariant forall j :: j in options <==> 0 <= j < i && Open(calculation, pitches[j], used)
    {
      if Open(calculation, pitches[i], used) {
        options := options + [i];
      }
    }
    if options == [] {
      return None;
    }
    var least := options[0];
    for k := 1 to |options|
      invariant least in options
      invariant forall l :: 0 <= l < k ==> Distance(calculation, pitches[least]) <= Distance(calculation, pitches[options[l]])
    {
      if Distance(calculation, pitches[options[k]]) < Distance(calculation, pitches[least]) {
        least := options[k];
      }
    }
    var closest := AllAtDistance(calculation, pitches, options, Distance(calculation, pitches[least]));
    assert least in closest;
    if |closest| != 1 {
      assert closest[0] in closest && closest[1] in closest && closest[0] < closest[1];
      return None;
    }
    assert forall j :: j in closest ==> j == closest[0];
    assert UniqueNearest(calculation, pitches, used, closest[0]);
    return Some(pitches[closest[0]]);
  }

  method AllAtDistance(calculation: Issue, pitches: seq<Issue>, options: seq<nat>, distance: nat) returns (closest: seq<nat>)
    requires Rising(options) && forall k :: 0 <= k < |options| ==> options[k] < |pitches|
    ensures Rising(closest)
    ensures forall j :: j in closest <==> j in options && Distance(calculation, pitches[j]) == distance
  {
    closest := [];
    for k := 0 to |options|
      invariant forall j :: j in closest <==> j in options[..k] && Distance(calculation, pitches[j]) == distance
      invariant Rising(closest) && forall g :: 0 <= g < |closest| ==> k > 0 && closest[g] <= options[k - 1]
    {
      assert options[..k + 1] == options[..k] + [options[k]];
      if Distance(calculation, pitches[options[k]]) == distance {
        closest := closest + [options[k]];
      }
    }
    assert options[..|options|] == options;
  }

  // ---------------------------------------------------------------- the greedy pass

  /** Calculations in order of age, each taking its choice among the pitches not yet used. */
  ghost function Greedy(calculations: seq<Issue>, pitches: seq<Issue>, used: set<string>): seq<Pair> {
    if calculations == [] then []
    else
      var c := Choice(calculations[0], pitches, used);
      if c.None? then Greedy(calculations[1..], pitches, used)
      else [Pair(c.value, calculations[0])] + Greedy(calculations[1..], pitches, used + {c.value.key})
  }

  ghost function Family(children: seq<Issue>, parent: string, title: string): seq<Pair> {
    var siblings := Siblings(children, parent);
    Greedy(Sort(Titled(siblings, title), Older), Titled(siblings, PREREQUISITE_TITLE), {})
  }

  ghost function Families(parents: seq<string>, children: seq<Issue>, title: string): seq<Pair> {
    if parents == [] then [] else Family(children, parents[0], title) + Families(parents[1..], children, title)
  }

  ghost function Pairs(children: seq<Issue>, title: string): seq<Pair> {
    Families(Sort(Parents(children), StringBefore), children, title)
  }

  /** The inner loop, extending the pairs found so far. */
  method PairFamily(found: seq<Pair>, calculations: seq<Issue>, pitches: seq<Issue>) returns (pairs: seq<Pair>)
    ensures pairs == found + Greedy(calculations, pitches, {})
  {
    pairs := found;
    var used: set<string> := {};
    assert calculations[0..] == calculations;
    for k := 0 to |calculations|
      invariant pairs + Greedy(calculations[k..], pitches, used) == found + Greedy(calculations, pitches, {})
    {
      assert calculations[k..][1..] == calculations[k + 1..];
      var closest := Nearest(calculations[k], pitches, used);
      if closest.None? {
        continue;
      }
      Sequences.Regroup(pairs, [Pair(closest.value, calculations[k])], Greedy(calculations[k + 1..], pitches, used + {closest.value.key}));
      used := used + {closest.value.key};
      pairs := pairs + [Pair(closest.value, calculations[k])];
    }
    assert calculations[|calculations|..] == [];
  }

  method PairChildren(children: seq<Issue>, title: string) returns (pairs: seq<Pair>)
    ensures pairs == Pairs(children, title)
  {
    hide Family;
    pairs := [];
    var parents := Sort(Parents(children), StringBefore);
    assert parents[0..] == parents;
    for i := 0 to |parents|
      invariant pairs + Families(parents[i..], children, title) == Pairs(children, title)
    {
      assert parents[i..][1..] == parents[i + 1..];
      FamilyIs(children, parents[i], title);
      var siblings := Siblings(children, parents[i]);
      var pitches := Titled(siblings, PREREQUISITE_TITLE);
      var calculations := Titled(siblings, title);
      Sequences.Regroup(pairs, Family(children, parents[i], title), Families(parents[i + 1..], children, title));
      pairs := PairFamily(pairs, Sort(calculations, Older), pitches);
    }
    assert parents[|parents|..] == [];
  }

  lemma FamilyIs(children: seq<Issue>, parent: string, title: string)
    ensures var siblings := Siblings(children, parent);
            Family(children, parent, title) == Greedy(Sort(Titled(siblings, title), Older), Titled(siblings, PREREQUISITE_TITLE), {})
  {
  }

  // ---------------------------------------------------------------- membership

  lemma {:induction false} SiblingsHas(children: seq<Issue>, parent: string)
    ensures forall x :: x in Siblings(children, parent) <==> x in children && x.parent == Some(parent)
  {
    if children != [] {
      SiblingsHas(children[1..], parent);
      assert children == [children[0]] + children[1..];
    }
  }

  lemma {:induction false} TitledHas(issues: seq<Issue>, title: string)
    ensures forall x :: x in Titled(issues, title) <==> x in issues && Contains(x.summary, title)
  {
    if issues != [] {
      TitledHas(issues[1..], title);
      assert issues == [issues[0]] + issues[1..];
    }
  }

  lemma {:induction false} ParentsHas(children: seq<Issue>)
    ensures forall p :: p in Parents(children) <==> exists x :: x in children && x.parent == Some(p)
    ensures forall i, j :: 0 <= i < j < |Parents(children)| ==> Parents(children)[i] != Parents(children)[j]
  {
    if children != [] {
      var n := |children| - 1;
      ParentsHas(children[..n]);
      assert children == children[..n] + [children[n]];
      assert forall x :: x in children <==> x in children[..n] || x == children[n];
    }
  }

  lemma {:induction false} SiblingsDistinct(children: seq<Issue>, parent: string)
    requires DistinctKeys(children)
    ensures DistinctKeys(Siblings(children, parent))
  {
    if children != [] {
      SiblingsDistinct(children[1..], parent);
      SiblingsHas(children[1..], parent);
      ConsDistinct(children, Siblings(children[1..], parent));
    }
  }

  lemma {:induction false} TitledDistinct(issues: seq<Issue>, title: string)
    requires DistinctKeys(issues)
    ensures DistinctKeys(Titled(issues, title))
  {
    if issues != [] {
      TitledDistinct(issues[1..], title);
      TitledHas(issues[1..], title);
      ConsDistinct(issues, Titled(issues[1..], title));
    }
  }

  lemma ConsDistinct(issues: seq<Issue>, kept: seq<Issue>)
    requires issues != [] && DistinctKeys(issues) && DistinctKeys(kept)
    requires forall x :: x in kept ==> x in issues[1..]
    ensures DistinctKeys([issues[0]] + kept)
  {
    forall j | 0 <= j < |kept| ensures kept[j].key != issues[0].key {
      assert kept[j] in issues[1..];
      var k :| 0 <= k < |issues| - 1 && issues[1..][k] == kept[j];
      assert issues[k + 1] == kept[j];
    }
  }

  lemma OlderIsStrict()
    ensures StrictOrder(Older)
  {
    forall a: Issue, b: Issue ensures Older(a, b) ==> !Older(b, a) {
      StringBeforeTotal(a.key, b.key);
    }
    forall a: Issue, b: Issue, c: Issue | Older(a, b) && Older(b, c) ensures Older(a, c) {
      if a.createdAt == b.createdAt == c.createdAt {
        StringBeforeTransitive(a.key, b.key, c.key);
      }
    }
    forall a: Issue, b: Issue, c: Issue | !Older(a, b) && !Older(b, c) ensures !Older(a, c) {
      StringBeforeTotal(a.key, b.key);
      StringBeforeTotal(b.key, c.key);
      StringBeforeTotal(a.key, c.key);
      if a.createdAt == b.createdAt == c.createdAt && a.key != b.key && b.key != c.key {
        StringBeforeTransitive(c.key, b.key, a.key);
      }
    }
  }

  lemma StringBeforeIsStrict()
    ensures StrictOrder(StringBefore)
  {
    forall a: string, b: string ensures StringBefore(a, b) ==> !StringBefore(b, a) {
      StringBeforeTotal(a, b);
    }
    forall a: string, b: string, c: string | StringBefore(a, b) && StringBefore(b, c) ensures StringBefore(a, c) {
      StringBeforeTransitive(a, b, c);
    }
    forall a: string, b: string, c: string | !StringBefore(a, b) && !StringBefore(b, c) ensures !StringBefore(a, c) {
      StringBeforeTotal(a, b);
      StringBeforeTotal(b, c);
      StringBeforeTotal(a, c);
      if a != b && b != c {
        StringBeforeTransitive(c, b, a);
      }
    }
  }

  lemma DistinctComparable(issues: seq<Issue>)
    requires DistinctKeys(issues)
    ensures Comparable(issues, Older)
  {
    forall i, j | 0 <= i < j < |issues| ensures Older(issues[i], issues[j]) || Older(issues[j], issues[i]) {
      StringBeforeTotal(issues[i].key, issues[j].key);
    }
  }

  // ---------------------------------------------------------------- any order of the input

  /** The same issues, keys distinct, in any order. */
  predicate Rearranged(a: seq<Issue>, b: seq<Issue>) {
    DistinctKeys(a) && DistinctKeys(b) && (forall x :: x in a ==> x in b) && (forall x :: x in b ==> x in a)
  }

  lemma NearestStays(calculation: Issue, a: seq<Issue>, b: seq<Issue>, used: set<string>, i: nat) returns (j: nat)
    requires Rearranged(a, b) && UniqueNearest(calculation, a, used, i)
    ensures UniqueNearest(calculation, b, used, j) && b[j] == a[i]
  {
    assert a[i] in b;
    j :| 0 <= j < |b| && b[j] == a[i];
    forall k | 0 <= k < |b| && k != j && Open(calculation, b[k], used)
      ensures Distance(calculation, b[j]) < Distance(calculation, b[k])
    {
      assert b[k].key != b[j].key;
      assert b[k] in a;
      var l :| 0 <= l < |a| && a[l] == b[k];
    }
  }

  lemma ChoiceStays(calculation: Issue, a: seq<Issue>, b: seq<Issue>, used: set<string>)
    requires Rearranged(a, b)
    ensures Choice(calculation, a, used) == Choice(calculation, b, used)
  {
    hide UniqueNearest, Rearranged;
    if i: nat :| UniqueNearest(calculation, a, used, i) {
      var j := NearestStays(calculation, a, b, used, i);
      assert UniqueNearest(calculation, b, used, j);
    } else if i: nat :| UniqueNearest(calculation, b, used, i) {
      assert Rearranged(b, a) by {
        RearrangedBack(a, b);
      }
      var _ := NearestStays(calculation, b, a, used, i);
    }
  }

  lemma RearrangedBack(a: seq<Issue>, b: seq<Issue>)
    requires Rearranged(a, b)
    ensures Rearranged(b, a)
  {
  }

  lemma {:induction false} GreedyStays(calculations: seq<Issue>, a: seq<Issue>, b: seq<Issue>, used: set<string>)
    requires Rearranged(a, b)
    ensures Greedy(calculations, a, used) == Greedy(calculations, b, used)
    decreases |calculations|
  {
    if calculations != [] {
      ChoiceStays(calculations[0], a, b, used);
      hide Choice, Rearranged;
      var c := Choice(calculations[0], a, used);
      GreedyStays(calculations[1..], a, b, if c.None? then used else used + {c.value.key});
    }
  }

  lemma SiblingsStay(a: seq<Issue>, b: seq<Issue>, parent: string)
    requires Rearranged(a, b)
    ensures Rearranged(Siblings(a, parent), Siblings(b, parent))
  {
    SiblingsDistinct(a, parent);
    SiblingsDistinct(b, parent);
    SiblingsHas(a, parent);
    SiblingsHas(b, parent);
  }

  lemma TitledStay(a: seq<Issue>, b: seq<Issue>, title: string)
    requires Rearranged(a, b)
    ensures Rearranged(Titled(a, title), Titled(b, title))
  {
    TitledDistinct(a, title);
    TitledDistinct(b, title);
    TitledHas(a, title);
    TitledHas(b, title);
  }

  lemma SortStays(a: seq<Issue>, b: seq<Issue>)
    requires Rearranged(a, b)
    ensures Sort(a, Older) == Sort(b, Older)
  {
    OlderIsStrict();
    DistinctComparable(a);
    DistinctComparable(b);
    SortAscending(a, Older);
    SortAscending(b, Older);
    SortSame(a, Older);
    SortSame(b, Older);
    AscendingUnique(Sort(a, Older), Sort(b, Older), Older);
  }

  lemma FamilyStays(a: seq<Issue>, b: seq<Issue>, parent: string, title: string)
    requires Rearranged(a, b)
    ensures Family(a, parent, title) == Family(b, parent, title)
  {
    hide Rearranged;
    var s, t := Siblings(a, parent), Siblings(b, parent);
    SiblingsStay(a, b, parent);
    TitledStay(s, t, title);
    TitledStay(s, t, PREREQUISITE_TITLE);
    SortStays(Titled(s, title), Titled(t, title));
    GreedyStays(Sort(Titled(s, title), Older), Titled(s, PREREQUISITE_TITLE), Titled(t, PREREQUISITE_TITLE), {});
  }

  lemma ParentsStay(a: seq<Issue>, b: seq<Issue>)
    requires Rearranged(a, b)
    ensures Sort(Parents(a), StringBefore) == Sort(Parents(b), StringBefore)
  {
    StringBeforeIsStrict();
    ParentsAscend(a);
    ParentsAscend(b);
    SortSame(Parents(a), StringBefore);
    SortSame(Parents(b), StringBefore);
    ParentsHas(a);
    ParentsHas(b);
    AscendingUnique(Sort(Parents(a), StringBefore), Sort(Parents(b), StringBefore), StringBefore);
  }

  lemma ParentsAscend(children: seq<Issue>)
    ensures Ascending(Sort(Parents(children), StringBefore), StringBefore)
  {
    ParentsHas(children);
    StringBeforeIsStrict();
    var parents := Parents(children);
    forall i, j | 0 <= i < j < |parents| ensures StringBefore(parents[i], parents[j]) || StringBefore(parents[j], parents[i]) {
      StringBeforeTotal(parents[i], parents[j]);
    }
    SortAscending(parents, StringBefore);
  }

  lemma {:induction false} FamiliesStay(parents: seq<string>, a: seq<Issue>, b: seq<Issue>, title: string)
    requires Rearranged(a, b)
    ensures Families(parents, a, title) == Families(parents, b, title)
  {
    hide Rearranged, Family;
    if parents != [] {
      FamilyStays(a, b, parents[0], title);
      FamiliesStay(parents[1..], a, b, title);
    }
  }

  /** The pairing does not depend on the order in which Jira lists the children. */
  lemma OrderIndependent(a: seq<Issue>, b: seq<Issue>, title: string)
    requires Rearranged(a, b)
    ensures Pairs(a, title) == Pairs(b, title)
  {
    ParentsStay(a, b);
    FamiliesStay(Sort(Parents(a), StringBefore), a, b, title);
  }
}
