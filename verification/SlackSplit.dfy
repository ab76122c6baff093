/** `split_slack_message`: cutting long agent output into chunks Slack accepts. */
module SlackSplit {
  import opened Text

  const NO_TEXT := "Агент завершил работу без текстового ответа."

  /** What is actually split: the stripped text, or the fixed notice when nothing is left of it. */
  function Body(text: string): (body: string)
    ensures body != "" && Trimmed(body)
  {
    var stripped := Strip(text);
    assert |NO_TEXT| == 44 && NO_TEXT[0] == 'А' && NO_TEXT[43] == '.';
    if stripped == "" then NO_TEXT else stripped
  }

  /** The last cut at `pattern` inside the window, when it lies in the window's second half. */
  predicate LastCut(s: string, pattern: string, limit: nat, cut: int) {
    && limit / 2 <= cut
    && cut + |pattern| <= limit
    && OccursAt(s, pattern, cut)
    && forall i :: cut < i && i + |pattern| <= limit ==> !OccursAt(s, pattern, i)
  }

  predicate NoCut(s: string, pattern: string, limit: nat) {
    forall i :: limit / 2 <= i && i + |pattern| <= limit ==> !OccursAt(s, pattern, i)
  }

  /** Where the next chunk ends: paragraph break, else line break, else space, else the hard limit. */
  function Cut(s: string, limit: nat): (cut: nat)
    requires |s| > limit
    ensures limit / 2 <= cut <= limit
  {
    var paragraph := RFind(s, "\n\n", limit);
    if limit / 2 <= paragraph then paragraph else
    var line := RFind(s, "\n", limit);
    if limit / 2 <= line then line else
    var space := RFind(s, " ", limit);
    if limit / 2 <= space then space else limit
  }

  lemma RFindIsCut(s: string, pattern: string, limit: nat)
    requires limit <= |s| && pattern != ""
    ensures var found := RFind(s, pattern, limit);
            if limit / 2 <= found then LastCut(s, pattern, limit, found) && !NoCut(s, pattern, limit)
            else NoCut(s, pattern, limit)
  {
  }

  /** The preference among boundaries: each kind is used exactly when no better kind occurs in
      the second half of the window, and then at its last occurrence. */
  lemma CutPriority(s: string, limit: nat)
    requires |s| > limit
    ensures NoCut(s, "\n\n", limit) || LastCut(s, "\n\n", limit, Cut(s, limit))
    ensures NoCut(s, "\n\n", limit) ==> NoCut(s, "\n", limit) || LastCut(s, "\n", limit, Cut(s, limit))
    ensures NoCut(s, "\n\n", limit) && NoCut(s, "\n", limit) ==>
              NoCut(s, " ", limit) || LastCut(s, " ", limit, Cut(s, limit))
    ensures NoCut(s, "\n\n", limit) && NoCut(s, "\n", limit) && NoCut(s, " ", limit) ==> Cut(s, limit) == limit
  {
    RFindIsCut(s, "\n\n", limit);
    RFindIsCut(s, "\n", limit);
    RFindIsCut(s, " ", limit);
  }

  lemma NotAtStart(s: string, pattern: string)
    requires Trimmed(s) && s != "" && pattern != "" && IsSpace(pattern[0])
    ensures !OccursAt(s, pattern, 0)
  {
    hide IsSpace;
    if |pattern| <= |s| {
      assert s[0..|pattern|][0] == s[0];
    }
  }

  /** The first character is no whitespace, so no boundary is ever found at 0. */
  lemma CutPositive(s: string, limit: nat)
    requires Trimmed(s) && |s| > limit
    ensures Cut(s, limit) >= 1 <==> limit >= 1
  {
    NotAtStart(s, "\n\n");
    NotAtStart(s, "\n");
    NotAtStart(s, " ");
    hide Trimmed, IsSpace, OccursAt, RFind;
  }

  lemma RestOfPass(s: string, cut: nat)
    requires Trimmed(s) && cut < |s|
    ensures var rest := LStrip(s[cut..]);
            rest != "" && Trimmed(rest) && |rest| <= |s| - cut && (cut == 0 ==> rest == s)
  {
    LStripKeeps(s[cut..], |s| - cut - 1);
    var rest := LStrip(s[cut..]);
    assert rest[|rest| - 1] == s[|s| - 1];
    if cut == 0 {
      assert s[cut..] == s;
      LStripKeeps(s, 0);
    }
  }

  lemma ChunkOfPass(s: string, cut: nat)
    requires Trimmed(s) && 0 < cut <= |s|
    ensures RStrip(s[..cut]) != "" && Trimmed(RStrip(s[..cut]))
  {
    RStripKeeps(s[..cut], 0);
    assert RStrip(s[..cut])[0] == s[0];
  }

  /** One pass of the loop takes off a proper chunk and leaves a shorter trimmed rest exactly
      when the limit is positive; with a zero limit the pass changes nothing, so the loop would
      never end. */
  lemma PassProgress(s: string, limit: nat)
    requires Trimmed(s) && |s| > limit
    ensures
      var chunk, rest := RStrip(s[..Cut(s, limit)]), LStrip(s[Cut(s, limit)..]);
      && rest != "" && Trimmed(rest) && Trimmed(chunk)
      && (|rest| < |s| <==> limit >= 1)
      && (chunk != "" <==> limit >= 1)
      && (limit == 0 ==> rest == s)
  {
    CutPositive(s, limit);
    RestOfPass(s, Cut(s, limit));
    if limit >= 1 {
      ChunkOfPass(s, Cut(s, limit));
    }
  }

  function Split(s: string, limit: nat): (chunks: seq<string>)
    requires limit >= 1 && Trimmed(s)
    decreases |s|
  {
    if |s| <= limit then [s] else
    PassProgress(s, limit);
    [RStrip(s[..Cut(s, limit)])] + Split(LStrip(s[Cut(s, limit)..]), limit)
  }

  /** The chunks in order with `gaps[i]` between chunk `i` and the next one. */
  function Interleave(chunks: seq<string>, gaps: seq<string>): string
    requires |chunks| == |gaps| + 1
  {
    if |gaps| == 0 then chunks[0]
    else chunks[0] + gaps[0] + Interleave(chunks[1..], gaps[1..])
  }

  predicate OnlySpace(gaps: seq<string>) {
    forall i :: 0 <= i < |gaps| ==> AllSpace(gaps[i])
  }

  /** Each chunk can be posted on its own. */
  predicate Postable(chunk: string, limit: nat) {
    chunk != "" && Trimmed(chunk) && |chunk| <= limit
  }

  lemma {:induction false} SplitIsPostable(s: string, limit: nat)
    requires limit >= 1 && Trimmed(s) && s != ""
    ensures forall i :: 0 <= i < |Split(s, limit)| ==> Postable(Split(s, limit)[i], limit)
    decreases |s|
  {
    if |s| > limit {
      PassProgress(s, limit);
      SplitIsPostable(LStrip(s[Cut(s, limit)..]), limit);
    }
  }

  lemma RegroupFour(a: string, b: string, c: string, d: string)
    ensures (a + b) + (c + d) == a + (b + c) + d
  {
  }

  /** What one pass takes off: the chunk, then only whitespace, then the rest. */
  lemma PassGap(s: string, cut: nat) returns (gap: string)
    requires cut <= |s|
    ensures AllSpace(gap) && s == RStrip(s[..cut]) + gap + LStrip(s[cut..])
  {
    hide *;
    var before := RStripParts(s[..cut]);
    var after := LStripParts(s[cut..]);
    gap := before + after;
    AllSpaceConcat(before, after);
    assert s == s[..cut] + s[cut..];
    RegroupFour(RStrip(s[..cut]), before, after, LStrip(s[cut..]));
  }

  lemma InterleaveCons(chunk: string, gap: string, chunks: seq<string>, gaps: seq<string>)
    requires |chunks| == |gaps| + 1 && AllSpace(gap) && OnlySpace(gaps)
    ensures Interleave([chunk] + chunks, [gap] + gaps) == chunk + gap + Interleave(chunks, gaps)
    ensures OnlySpace([gap] + gaps)
  {
    assert ([chunk] + chunks)[1..] == chunks && ([gap] + gaps)[1..] == gaps;
  }

  /** Nothing but whitespace between chunks is lost, and nothing is reordered. */
  lemma {:induction false} SplitRebuilds(s: string, limit: nat) returns (gaps: seq<string>)
    requires limit >= 1 && Trimmed(s) && s != ""
    ensures |Split(s, limit)| == |gaps| + 1 && OnlySpace(gaps)
    ensures Interleave(Split(s, limit), gaps) == s
    decreases |s|
  {
    if |s| <= limit {
      gaps := [];
    } else {
      PassProgress(s, limit);
      var chunk, rest := RStrip(s[..Cut(s, limit)]), LStrip(s[Cut(s, limit)..]);
      var later := SplitRebuilds(rest, limit);
      var gap := PassGap(s, Cut(s, limit));
      gaps := [gap] + later;
      InterleaveCons(chunk, gap, Split(rest, limit), later);
      assert Split(s, limit) == [chunk] + Split(rest, limit);
    }
  }

  /** The chunks in order, with only whitespace between them and at the two ends, are the text. */
  ghost predicate Rebuilds(chunks: seq<string>, text: string) {
    exists before, gaps, after ::
      && |chunks| == |gaps| + 1 && AllSpace(before) && OnlySpace(gaps) && AllSpace(after)
      && text == before + Interleave(chunks, gaps) + after
  }

  lemma {:induction false} BlankStrips(text: string)
    requires AllSpace(text)
    ensures LStrip(text) == ""
  {
    if text != "" {
      BlankStrips(text[1..]);
    }
  }

  /** What is split is the text without the blanks around it, or the notice for a blank text. */
  lemma BodyIs(text: string) returns (before: string, after: string)
    ensures AllSpace(text) ==> Body(text) == NO_TEXT
    ensures !AllSpace(text) ==> AllSpace(before) && AllSpace(after) && text == before + Body(text) + after
  {
    before, after := "", "";
    if AllSpace(text) {
      BlankStrips(text);
    } else {
      var i :| 0 <= i < |text| && !IsSpace(text[i]);
      LStripKeeps(text, i);
      var t := LStrip(text);
      RStripKeeps(t, 0);
      before, after := StripParts(text);
    }
  }

  lemma BodyRebuilds(text: string, chunks: seq<string>, gaps: seq<string>)
    requires |chunks| == |gaps| + 1 && OnlySpace(gaps) && Interleave(chunks, gaps) == Body(text)
    ensures !AllSpace(text) ==> Rebuilds(chunks, text)
    ensures AllSpace(text) ==> Rebuilds(chunks, NO_TEXT)
  {
    hide Body, Interleave, OnlySpace, Rebuilds;
    var before, after := BodyIs(text);
    if AllSpace(text) {
      assert NO_TEXT == "" + NO_TEXT + "";
      RebuildsBy("", chunks, gaps, "", NO_TEXT);
    } else {
      RebuildsBy(before, chunks, gaps, after, text);
    }
  }

  lemma RebuildsBy(before: string, chunks: seq<string>, gaps: seq<string>, after: string, text: string)
    requires |chunks| == |gaps| + 1 && AllSpace(before) && OnlySpace(gaps) && AllSpace(after)
    requires text == before + Interleave(chunks, gaps) + after
    ensures Rebuilds(chunks, text)
  {
    hide Interleave, OnlySpace, AllSpace;
  }

  /** The loop itself. Termination is proved from `PassProgress`: it needs a positive limit. */
  method SplitSlackMessage(text: string, limit: nat) returns (chunks: seq<string>)
    requires limit >= 1
    ensures chunks == Split(Body(text), limit)
    ensures forall i :: 0 <= i < |chunks| ==> Postable(chunks[i], limit)
    // a text with something in it comes back; a blank one is answered with the notice
    ensures !AllSpace(text) ==> Rebuilds(chunks, text)
    ensures AllSpace(text) ==> Rebuilds(chunks, NO_TEXT)
  {
    hide Rebuilds, Body, Cut, LStrip, RStrip, OnlySpace, Interleave;
    var normalized := Body(text);
    chunks := [];
    while |normalized| > limit
      invariant normalized != "" && Trimmed(normalized)
      invariant Split(Body(text), limit) == chunks + Split(normalized, limit)
      decreases |normalized|
    {
      PassProgress(normalized, limit);
      var boundary := Cut(normalized, limit);
      chunks := chunks + [RStrip(normalized[..boundary])];
      normalized := LStrip(normalized[boundary..]);
    }
    chunks := chunks + [normalized];
    SplitIsPostable(Body(text), limit);
    var gaps := SplitRebuilds(Body(text), limit);
    BodyRebuilds(text, chunks, gaps);
  }
}
