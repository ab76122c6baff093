/** String operations of the host language that the splitter and the crontab editor rely on. */
module Text {
  import Sequences

  /** The characters `str.strip` and `str.split` treat as whitespace. */
  predicate IsSpace(c: char) {
    || '\t' <= c <= '\r'
    || '\U{1C}' <= c <= ' '
    || c == '\U{85}'
    || c == '\U{A0}'
    || c == '\U{1680}'
    || '\U{2000}' <= c <= '\U{200A}'
    || c == '\U{2028}'
    || c == '\U{2029}'
    || c == '\U{202F}'
    || c == '\U{205F}'
    || c == '\U{3000}'
  }

  /** One by one. */
  lemma SpacesAre(c: char)
    ensures IsSpace(c) <==> c in {'\t', '\n', '\U{B}', '\U{C}', '\r', '\U{1C}', '\U{1D}', '\U{1E}', '\U{1F}', ' ',
                                  '\U{85}', '\U{A0}', '\U{1680}', '\U{2000}', '\U{2001}', '\U{2002}', '\U{2003}',
                                  '\U{2004}', '\U{2005}', '\U{2006}', '\U{2007}', '\U{2008}', '\U{2009}', '\U{200A}',
                                  '\U{2028}', '\U{2029}', '\U{202F}', '\U{205F}', '\U{3000}'}
  {
    var n := c as int;
    assert 9 <= n <= 13 ==> n == 9 || n == 10 || n == 11 || n == 12 || n == 13;
    assert 0x1C <= n <= 0x20 ==> n == 0x1C || n == 0x1D || n == 0x1E || n == 0x1F || n == 0x20;
    assert 0x2000 <= n <= 0x200A ==>
      n == 0x2000 || n == 0x2001 || n == 0x2002 || n == 0x2003 || n == 0x2004 || n == 0x2005 || n == 0x2006 || n == 0x2007
      || n == 0x2008 || n == 0x2009 || n == 0x200A;
  }

  predicate AllSpace(s: string) {
    forall i :: 0 <= i < |s| ==> IsSpace(s[i])
  }

  /** Neither the first nor the last character is whitespace. */
  predicate Trimmed(s: string) {
    s != "" ==> !IsSpace(s[0]) && !IsSpace(s[|s| - 1])
  }

  function LStrip(s: string): (r: string)
    ensures |r| <= |s| && s[|s| - |r|..] == r
    ensures AllSpace(s[..|s| - |r|])
    ensures r != "" ==> !IsSpace(r[0])
  {
    if s != "" && IsSpace(s[0]) then LStrip(s[1..]) else s
  }

  function RStrip(s: string): (r: string)
    ensures |r| <= |s| && s[..|r|] == r
    ensures AllSpace(s[|r|..])
    ensures r != "" ==> !IsSpace(r[|r| - 1])
  {
    if s != "" && IsSpace(s[|s| - 1]) then
      var r := RStrip(s[..|s| - 1]);
      assert s[|r|..] == s[..|s| - 1][|r|..] + [s[|s| - 1]];
      r
    else s
  }

  function Strip(s: string): (r: string)
    ensures Trimmed(r)
  {
    var t := LStrip(s);
    var r := RStrip(t);
    assert r != "" ==> r[0] == t[0];
    r
  }

  lemma {:induction false} LStripKeeps(s: string, i: nat)
    requires i < |s| && !IsSpace(s[i])
    ensures |LStrip(s)| >= |s| - i
  {
    if IsSpace(s[0]) {
      LStripKeeps(s[1..], i - 1);
    }
  }

  lemma {:induction false} RStripKeeps(s: string, i: nat)
    requires i < |s| && !IsSpace(s[i])
    ensures |RStrip(s)| > i
  {
    if IsSpace(s[|s| - 1]) {
      RStripKeeps(s[..|s| - 1], i);
    }
  }

  lemma LStripParts(s: string) returns (gap: string)
    ensures AllSpace(gap) && s == gap + LStrip(s)
  {
    var r := LStrip(s);
    gap := s[..|s| - |r|];
  }

  lemma RStripParts(s: string) returns (gap: string)
    ensures AllSpace(gap) && s == RStrip(s) + gap
  {
    var r := RStrip(s);
    gap := s[|r|..];
  }

  lemma AllSpaceConcat(a: string, b: string)
    requires AllSpace(a) && AllSpace(b)
    ensures AllSpace(a + b)
  {
  }

  lemma {:induction false} LStripAfter(gap: string, s: string)
    requires AllSpace(gap) && s != "" && !IsSpace(s[0])
    ensures LStrip(gap + s) == s
  {
    if gap == "" {
      assert gap + s == s;
    } else {
      assert (gap + s)[1..] == gap[1..] + s;
      LStripAfter(gap[1..], s);
    }
  }

  lemma {:induction false} RStripBefore(s: string, gap: string)
    requires AllSpace(gap) && s != "" && !IsSpace(s[|s| - 1])
    ensures RStrip(s + gap) == s
  {
    if gap == "" {
      assert s + gap == s;
    } else {
      var shorter := gap[..|gap| - 1];
      assert (s + gap)[..|s + gap| - 1] == s + shorter;
      RStripBefore(s, shorter);
    }
  }

  lemma LStripCore(before: string, core: string, after: string)
    requires AllSpace(before) && core != "" && Trimmed(core)
    ensures LStrip(before + core + after) == core + after
  {
    hide LStrip, IsSpace, AllSpace;
    assert before + core + after == before + (core + after);
    LStripAfter(before, core + after);
  }

  lemma RStripCore(before: string, core: string, after: string)
    requires AllSpace(after) && core != "" && Trimmed(core)
    ensures RStrip(before + core + after) == before + core
  {
    hide RStrip, IsSpace, AllSpace;
    RStripBefore(before + core, after);
  }

  /** A trimmed core between two runs of whitespace is what every stripping leaves of it. */
  lemma StripCore(before: string, core: string, after: string)
    requires AllSpace(before) && AllSpace(after) && core != "" && Trimmed(core)
    ensures Strip(before + core + after) == core
    ensures RStrip(before + core + after) == before + core
    ensures LStrip(before + core + after) == core + after
  {
    hide LStrip, RStrip, IsSpace, AllSpace;
    LStripCore(before, core, after);
    RStripCore(before, core, after);
    assert "" + core == core;
    RStripCore("", core, after);
  }

  /** Every string with something to keep has such a core. */
  lemma StripParts(s: string) returns (before: string, after: string)
    requires Strip(s) != ""
    ensures AllSpace(before) && AllSpace(after) && s == before + Strip(s) + after
  {
    before := LStripParts(s);
    after := RStripParts(LStrip(s));
    Sequences.Regroup(before, RStrip(LStrip(s)), after);
  }

  lemma StripNothing(s: string)
    requires s == "" || Trimmed(s)
    ensures Strip(s) == s
  {
    if s != "" {
      hide LStrip, RStrip, Strip, IsSpace;
      assert "" + s + "" == s;
      StripCore("", s, "");
    }
  }

  predicate StartsWith(s: string, prefix: string) {
    |prefix| <= |s| && s[..|prefix|] == prefix
  }

  predicate EndsWith(s: string, suffix: string) {
    |suffix| <= |s| && s[|s| - |suffix|..] == suffix
  }

  predicate OccursAt(s: string, pattern: string, i: int) {
    0 <= i && i + |pattern| <= |s| && s[i..i + |pattern|] == pattern
  }

  predicate Contains(s: string, pattern: string) {
    exists i :: 0 <= i <= |s| && OccursAt(s, pattern, i)
  }

  /** `s.rfind(pattern, 0, end)`: the last occurrence that ends at or before `end`, else -1. */
  function RFind(s: string, pattern: string, end: nat): (r: int)
    requires end <= |s| && pattern != ""
    ensures -1 <= r
    ensures r >= 0 ==> OccursAt(s, pattern, r) && r + |pattern| <= end
    ensures forall i :: r < i && i + |pattern| <= end ==> !OccursAt(s, pattern, i)
  {
    if end < |pattern| then -1
    else if OccursAt(s, pattern, end - |pattern|) then end - |pattern|
    else RFind(s, pattern, end - 1)
  }
}
