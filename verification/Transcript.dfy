/** Provider transcripts: growing text files with one JSON record a line. */
module Transcript {

  /** The token counters of one message. */
  datatype Tokens = Tokens(input: int, cacheCreation: int, cacheRead: int, output: int)

  /** What decoding one line yields.
      `Ignored`: not JSON, not an assistant record, or without a message id.
      `Broken`: an assistant record whose fields cannot be read, so reading it raises.
      `Blank`: a message whose usage object is missing or empty.
      `Message`: a message with counters. */
  datatype Record =
    | Ignored
    | Broken
    | Blank(id: string)
    | Message(id: string, tokens: Tokens)

  type Parser = string -> Record

  // ---------------------------------------------------------------- lines

  /** Where `readline` from `from` stops: behind the next newline, or at the end of the file. */
  function LineEnd(s: string, from: nat): (end: nat)
    requires from <= |s|
    ensures from <= end <= |s|
    ensures forall i :: from <= i < end - 1 ==> s[i] != '\n'
    ensures end < |s| ==> end > from && s[end - 1] == '\n'
    decreases |s| - from
  {
    if from == |s| then from
    else if s[from] == '\n' then from + 1
    else LineEnd(s, from + 1)
  }

  /** `readline` from `from` returns a finished record. */
  predicate HasLine(s: string, from: nat)
    requires from <= |s|
  {
    var end := LineEnd(s, from);
    end > from && s[end - 1] == '\n'
  }

  /** What one pass over a file from an offset reads: the records up to the unfinished last line,
      or up to and including the first broken one; and the offset behind the last of them. */
  datatype Reading = Reading(records: seq<Record>, end: nat, broken: bool)

  function Read(s: string, from: nat, parse: Parser): (r: Reading)
    requires from <= |s|
    ensures from <= r.end <= |s|
    ensures r.records == [] <==> r.end == from
    ensures r.end > from ==> s[r.end - 1] == '\n'
    decreases |s| - from
  {
    if !HasLine(s, from) then Reading([], from, false) else
    var end := LineEnd(s, from);
    var record := parse(s[from..end]);
    if record.Broken? then Reading([record], end, true) else
    var rest := Read(s, end, parse);
    Reading([record] + rest.records, rest.end, rest.broken)
  }

  /** All finished records of a file, broken ones included. */
  function Records(s: string, from: nat, parse: Parser): seq<Record>
    requires from <= |s|
    decreases |s| - from
  {
    if !HasLine(s, from) then [] else
    var end := LineEnd(s, from);
    [parse(s[from..end])] + Records(s, end, parse)
  }

  /** `offset` is the start of a line. */
  predicate AtLineStart(s: string, offset: nat) {
    offset <= |s| && (offset == 0 || s[offset - 1] == '\n')
  }

  /** `offset` is the end of the last complete line. */
  predicate AtLastLine(s: string, offset: nat) {
    AtLineStart(s, offset) && forall i :: offset <= i < |s| ==> s[i] != '\n'
  }

  lemma {:induction false} LineEndStable(s: string, t: string, from: nat)
    requires from <= |s| && HasLine(s, from) && s <= t
    ensures LineEnd(t, from) == LineEnd(s, from) && HasLine(t, from)
    ensures t[from..LineEnd(t, from)] == s[from..LineEnd(s, from)]
    decreases |s| - from
  {
    if s[from] != '\n' {
      LineEndStable(s, t, from + 1);
    }
  }

  /** Reading on from a line start sees exactly the records the first part did not have. */
  lemma {:induction false} RecordsSplit(s: string, from: nat, mid: nat, parse: Parser)
    requires from <= mid <= |s| && AtLineStart(s, mid)
    ensures Records(s, from, parse) == Records(s[..mid], from, parse) + Records(s, mid, parse)
    decreases |s| - from
  {
    if from < mid {
      var head := s[..mid];
      assert head[mid - 1] == '\n';
      assert HasLine(head, from);
      LineEndStable(head, s, from);
      RecordsSplit(s, LineEnd(s, from), mid, parse);
    }
  }

  lemma HeadHasLine(s: string, from: nat, end: nat)
    requires from < end <= |s| && s[end - 1] == '\n'
    ensures HasLine(s[..end], from) && HasLine(s, from)
    ensures LineEnd(s[..end], from) == LineEnd(s, from) <= end
    ensures s[..end][from..LineEnd(s, from)] == s[from..LineEnd(s, from)]
  {
    var head := s[..end];
    assert head[end - 1] == '\n';
    assert HasLine(head, from);
    LineEndStable(head, s, from);
  }

  /** What a pass reads is the finished records of the part it moved over. */
  lemma {:induction false} ReadIsRecords(s: string, from: nat, parse: Parser)
    requires AtLineStart(s, from)
    ensures var r := Read(s, from, parse);
            && AtLineStart(s, r.end)
            && r.records == Records(s[..r.end], from, parse)
            && (!r.broken ==> AtLastLine(s, r.end) && r.records == Records(s, from, parse))
    decreases |s| - from
  {
    var r := Read(s, from, parse);
    if HasLine(s, from) {
      var end := LineEnd(s, from);
      HeadHasLine(s, from, r.end);
      if parse(s[from..end]).Broken? {
        assert !HasLine(s[..end], end);
      } else {
        ReadIsRecords(s, end, parse);
      }
    }
  }

  /** A pass stops early exactly at a broken record, which is then its last one. */
  lemma {:induction false} ReadStopsAtBroken(s: string, from: nat, parse: Parser)
    requires from <= |s|
    ensures var r := Read(s, from, parse);
            && (r.broken <==> r.records != [] && r.records[|r.records| - 1].Broken?)
            && forall i :: 0 <= i < |r.records| - 1 ==> !r.records[i].Broken?
    decreases |s| - from
  {
    if HasLine(s, from) && !parse(s[from..LineEnd(s, from)]).Broken? {
      ReadStopsAtBroken(s, LineEnd(s, from), parse);
    }
  }
}
