/** `collect_reports` and `complete_run`: monitoring reports assembled from a header message and the
    chunks that follow it. */
module Reports {
  import opened Wrappers
  import opened Text
  import opened Ordering

  /** A message of the detector webhook; times are in microseconds. */
  datatype Message = Message(at: int, text: string)

  datatype Report = Report(marker: string, at: int, text: string)

  const WEB_REPORT_MARKER := "UG Monetisation: WEB health monitoring"
  const MOBILE_REPORT_MARKER := "UG Monetisation: Mobile Health Monitoring Dashboard"
  const SUBSCRIPTIONS_REPORT_MARKER := "UG Monetisation: WEB Subscriptions Monitoring"
  const REQUIRED_MARKERS := [WEB_REPORT_MARKER, MOBILE_REPORT_MARKER, SUBSCRIPTIONS_REPORT_MARKER]
  const CHUNK_WINDOW: int := 60_000_000
  const RUN_WINDOW: int := 3_600_000_000

  /** The report a message starts, if it is a header. */
  function ReportMarker(text: string): (r: Option<string>)
    ensures r.Some? ==> r.value in REQUIRED_MARKERS
  {
    if Contains(text, WEB_REPORT_MARKER) then Some(WEB_REPORT_MARKER)
    else if Contains(text, MOBILE_REPORT_MARKER) then Some(MOBILE_REPORT_MARKER)
    else if Contains(text, SUBSCRIPTIONS_REPORT_MARKER) then Some(SUBSCRIPTIONS_REPORT_MARKER)
    else None
  }

  /** A header starts the first required report whose marker occurs in it; a message with none of the
      markers is no header. */
  lemma MarkerIsFirst(text: string)
    ensures match ReportMarker(text)
            case None => forall k :: 0 <= k < |REQUIRED_MARKERS| ==> !Contains(text, REQUIRED_MARKERS[k])
            case Some(marker) =>
              exists k :: 0 <= k < |REQUIRED_MARKERS| && marker == REQUIRED_MARKERS[k] && Contains(text, marker)
                          && forall l :: 0 <= l < k ==> !Contains(text, REQUIRED_MARKERS[l])
  {
    hide Contains;
    assert REQUIRED_MARKERS[0] == WEB_REPORT_MARKER && REQUIRED_MARKERS[1] == MOBILE_REPORT_MARKER;
    assert REQUIRED_MARKERS[2] == SUBSCRIPTIONS_REPORT_MARKER;
  }

  predicate Earlier(a: Message, b: Message) {
    a.at < b.at
  }

  predicate IsHeader(m: Message) {
    ReportMarker(m.text).Some?
  }

  /** Line feed. */
  function Joined(lines: seq<string>): string {
    if lines == [] then "" else if |lines| == 1 then lines[0] else lines[0] + "\n" + Joined(lines[1..])
  }

  // ---------------------------------------------------------------- what a report is

  /** The latest header of a marker among the first `n` messages. */
  function LastHeader(ordered: seq<Message>, n: nat, marker: string): (r: Option<nat>)
    requires n <= |ordered|
    ensures match r
            case Some(h) =>
              && h < n && ReportMarker(ordered[h].text) == Some(marker)
              && forall i :: h < i < n ==> ReportMarker(ordered[i].text) != Some(marker)
            case None => forall i :: 0 <= i < n ==> ReportMarker(ordered[i].text) != Some(marker)
  {
    if n == 0 then None
    else if ReportMarker(ordered[n - 1].text) == Some(marker) then Some(n - 1)
    else LastHeader(ordered, n - 1, marker)
  }

  /** The message belongs to the header: no header since, and within the chunk window. */
  predicate IsChunk(ordered: seq<Message>, h: nat, i: nat)
    requires h < |ordered|
  {
    && h < i < |ordered|
    && (forall j :: h < j <= i ==> !IsHeader(ordered[j]))
    && ordered[i].at - ordered[h].at <= CHUNK_WINDOW
  }

  /** The texts of the chunks of header `h` among the messages from `h + 1` to before `n`. */
  function Chunks(ordered: seq<Message>, h: nat, n: nat): seq<string>
    requires h < n <= |ordered|
  {
    if n == h + 1 then []
    else Chunks(ordered, h, n - 1) + (if IsChunk(ordered, h, n - 1) then [ordered[n - 1].text] else [])
  }

  /** Each marker that has a header, with its latest header followed by that header's chunks. */
  predicate Describes(reports: map<string, Report>, ordered: seq<Message>) {
    && reports.Keys <= (set marker | marker in REQUIRED_MARKERS)
    && forall marker | marker in REQUIRED_MARKERS ::
         match LastHeader(ordered, |ordered|, marker)
         case None => marker !in reports
         case Some(h) =>
           marker in reports
           && reports[marker] == Report(marker, ordered[h].at, Joined([ordered[h].text] + Chunks(ordered, h, |ordered|)))
  }

  predicate InOrder(ordered: seq<Message>) {
    forall i, j :: 0 <= i < j < |ordered| ==> ordered[i].at <= ordered[j].at
  }

  // ---------------------------------------------------------------- the loop

  /** What the two dictionaries hold for a marker after the first `n` messages. */
  predicate Entry(ordered: seq<Message>, n: nat, headers: map<string, Message>, chunks: map<string, seq<string>>, marker: string)
    requires n <= |ordered|
  {
    match LastHeader(ordered, n, marker)
    case None => marker !in headers && marker !in chunks
    case Some(h) => marker in headers && headers[marker] == ordered[h] && marker in chunks && chunks[marker] == Chunks(ordered, h, n)
  }

  ghost predicate Entries(ordered: seq<Message>, n: nat, headers: map<string, Message>, chunks: map<string, seq<string>>)
    requires n <= |ordered|
  {
    forall marker :: Entry(ordered, n, headers, chunks, marker)
  }

  /** `last` is the last header of any report. The report listens for chunks until a message comes
      too late for it. */
  predicate Listens(ordered: seq<Message>, n: nat, last: Option<nat>, current: Option<string>)
    requires n <= |ordered|
  {
    match last
    case None => current.None? && forall i :: 0 <= i < n ==> !IsHeader(ordered[i])
    case Some(h) =>
      && h < n && IsHeader(ordered[h])
      && (forall i :: h < i < n ==> !IsHeader(ordered[i]))
      && if current.Some? then
           && current == ReportMarker(ordered[h].text)
           && forall i :: h < i < n ==> ordered[i].at - ordered[h].at <= CHUNK_WINDOW
         else exists i :: h < i < n && ordered[i].at - ordered[h].at > CHUNK_WINDOW
  }

  /** Message `n` is a chunk of exactly the report that listens, if it comes in time. */
  lemma ChunkOfCurrent(ordered: seq<Message>, n: nat, last: Option<nat>, current: Option<string>, h: nat)
    requires n < |ordered| && InOrder(ordered) && Listens(ordered, n, last, current)
    requires h < n && IsHeader(ordered[h])
    ensures IsChunk(ordered, h, n) <==>
              current.Some? && last == Some(h) && !IsHeader(ordered[n]) && ordered[n].at - ordered[h].at <= CHUNK_WINDOW
  {
    if last.Some? && current.None? && last.value == h {
      var i :| h < i < n && ordered[i].at - ordered[h].at > CHUNK_WINDOW;
      assert ordered[i].at <= ordered[n].at;
    }
  }

  /** A message that is no chunk and no header leaves everything as it was. */
  lemma EntryIgnores(ordered: seq<Message>, n: nat, headers: map<string, Message>, chunks: map<string, seq<string>>,
      last: Option<nat>, current: Option<string>)
    requires n < |ordered| && InOrder(ordered) && Listens(ordered, n, last, current)
    requires Entries(ordered, n, headers, chunks) && !IsHeader(ordered[n])
    requires current.None? || ordered[n].at - ordered[last.value].at > CHUNK_WINDOW
    ensures Entries(ordered, n + 1, headers, chunks)
  {
    var m := n + 1;
    forall marker ensures Entry(ordered, m, headers, chunks, marker) {
      assert Entry(ordered, n, headers, chunks, marker);
      var h := LastHeader(ordered, n, marker);
      if h.Some? {
        ChunkOfCurrent(ordered, n, last, current, h.value);
      }
    }
  }

  lemma EntryHeader(ordered: seq<Message>, n: nat, headers: map<string, Message>, chunks: map<string, seq<string>>,
      last: Option<nat>, current: Option<string>)
    requires n < |ordered| && InOrder(ordered) && Listens(ordered, n, last, current)
    requires Entries(ordered, n, headers, chunks) && IsHeader(ordered[n])
    ensures var name := ReportMarker(ordered[n].text).value;
            Entries(ordered, n + 1, headers[name := ordered[n]], chunks[name := []])
  {
    var name := ReportMarker(ordered[n].text).value;
    var m, laterHeaders, laterChunks := n + 1, headers[name := ordered[n]], chunks[name := []];
    forall marker ensures Entry(ordered, m, laterHeaders, laterChunks, marker) {
      assert Entry(ordered, n, headers, chunks, marker);
      var h := LastHeader(ordered, n, marker);
      if h.Some? {
        ChunkOfCurrent(ordered, n, last, current, h.value);
      }
    }
  }

  lemma EntryChunk(ordered: seq<Message>, n: nat, headers: map<string, Message>, chunks: map<string, seq<string>>,
      last: Option<nat>, current: Option<string>)
    requires n < |ordered| && InOrder(ordered) && Listens(ordered, n, last, current)
    requires Entries(ordered, n, headers, chunks) && !IsHeader(ordered[n])
    requires current.Some? && ordered[n].at - ordered[last.value].at <= CHUNK_WINDOW
    ensures current.value in headers && headers[current.value] == ordered[last.value] && current.value in chunks
    ensures Entries(ordered, n + 1, headers, chunks[current.value := chunks[current.value] + [ordered[n].text]])
  {
    var name := current.value;
    assert LastHeader(ordered, n, name) == last;
    assert Entry(ordered, n, headers, chunks, name);
    var m, laterChunks := n + 1, chunks[name := chunks[name] + [ordered[n].text]];
    forall marker ensures Entry(ordered, m, headers, laterChunks, marker) {
      assert Entry(ordered, n, headers, chunks, marker);
      var h := LastHeader(ordered, n, marker);
      if h.Some? {
        ChunkOfCurrent(ordered, n, last, current, h.value);
      }
    }
  }

  lemma CurrentHeader(ordered: seq<Message>, n: nat, headers: map<string, Message>, chunks: map<string, seq<string>>,
      last: Option<nat>, current: Option<string>)
    requires n <= |ordered| && Listens(ordered, n, last, current) && Entries(ordered, n, headers, chunks) && current.Some?
    ensures current.value in headers && headers[current.value] == ordered[last.value] && current.value in chunks
  {
    assert LastHeader(ordered, n, current.value) == last;
    assert Entry(ordered, n, headers, chunks, current.value);
  }

  /** The result is the declarative meaning of the messages in time order. */
  method CollectReports(messages: seq<Message>) returns (reports: map<string, Report>)
    ensures Describes(reports, Sort(messages, Earlier))
  {
    var ordered := Sort(messages, Earlier);
    SortInOrder(messages);
    var headers: map<string, Message> := map[];
    var chunks: map<string, seq<string>> := map[];
    var current: Option<string> := None;
    ghost var last: Option<nat> := None;
    hide Entries, Sort, InOrder;
    assert Entries(ordered, 0, headers, chunks) by {
      NoEntries(ordered);
    }
    for n := 0 to |ordered|
      invariant Entries(ordered, n, headers, chunks) && Listens(ordered, n, last, current)
    {
      var marker := ReportMarker(ordered[n].text);
      if marker.Some? {
        EntryHeader(ordered, n, headers, chunks, last, current);
        headers := headers[marker.value := ordered[n]];
        chunks := chunks[marker.value := []];
        current := marker;
        last := Some(n);
        continue;
      }
      if current.None? {
        EntryIgnores(ordered, n, headers, chunks, last, current);
        continue;
      }
      CurrentHeader(ordered, n, headers, chunks, last, current);
      if ordered[n].at - headers[current.value].at > CHUNK_WINDOW {
        EntryIgnores(ordered, n, headers, chunks, last, current);
        current := None;
        continue;
      }
      EntryChunk(ordered, n, headers, chunks, last, current);
      chunks := chunks[current.value := chunks[current.value] + [ordered[n].text]];
    }
    EntriesChunks(ordered, headers, chunks);
    reports := map marker | marker in headers ::
      Report(marker, headers[marker].at, Joined([headers[marker].text] + chunks[marker]));
    EntriesDescribe(ordered, headers, chunks, reports);
  }

  lemma NoEntries(ordered: seq<Message>)
    ensures Entries(ordered, 0, map[], map[])
  {
  }

  lemma EntriesChunks(ordered: seq<Message>, headers: map<string, Message>, chunks: map<string, seq<string>>)
    requires Entries(ordered, |ordered|, headers, chunks)
    ensures headers.Keys == chunks.Keys
  {
    forall marker ensures marker in headers <==> marker in chunks {
      assert Entry(ordered, |ordered|, headers, chunks, marker);
    }
  }

  lemma EntriesDescribe(ordered: seq<Message>, headers: map<string, Message>, chunks: map<string, seq<string>>,
      reports: map<string, Report>)
    requires Entries(ordered, |ordered|, headers, chunks) && headers.Keys == chunks.Keys
    requires reports == map marker | marker in headers ::
               Report(marker, headers[marker].at, Joined([headers[marker].text] + chunks[marker]))
    ensures Describes(reports, ordered)
  {
    hide ReportMarker, Joined, Chunks, LastHeader;
    forall marker | marker in reports ensures marker in REQUIRED_MARKERS {
      assert Entry(ordered, |ordered|, headers, chunks, marker);
    }
    forall marker | marker in REQUIRED_MARKERS
      ensures match LastHeader(ordered, |ordered|, marker)
              case None => marker !in reports
              case Some(h) =>
                marker in reports
                && reports[marker] == Report(marker, ordered[h].at, Joined([ordered[h].text] + Chunks(ordered, h, |ordered|)))
    {
      assert Entry(ordered, |ordered|, headers, chunks, marker);
    }
  }

  lemma EarlierIsStrict()
    ensures StrictOrder(Earlier)
  {
  }

  lemma SortInOrder(messages: seq<Message>)
    ensures InOrder(Sort(messages, Earlier))
  {
    EarlierIsStrict();
    SortSorted(messages, Earlier);
  }

  // ---------------------------------------------------------------- the text of a report

  /** The text of the report of header `h` after the first `n` messages. */
  function TextUpTo(ordered: seq<Message>, h: nat, n: nat): string
    requires h < n <= |ordered|
  {
    Joined([ordered[h].text] + Chunks(ordered, h, n))
  }

  lemma {:induction false} JoinedSnoc(texts: seq<string>, last: string)
    requires texts != []
    ensures Joined(texts + [last]) == Joined(texts) + "\n" + last
  {
    if |texts| == 1 {
      assert (texts + [last])[1..] == [last];
    } else {
      assert (texts + [last])[1..] == texts[1..] + [last];
      JoinedSnoc(texts[1..], last);
    }
  }

  /** The message starts none of the three reports. */
  predicate NoHeader(m: Message) {
    && !Contains(m.text, "UG Monetisation: WEB health monitoring")
    && !Contains(m.text, "UG Monetisation: Mobile Health Monitoring Dashboard")
    && !Contains(m.text, "UG Monetisation: WEB Subscriptions Monitoring")
  }

  /** A report is its header's text, and each message after it, up to the next header of any report and within
      a minute, is appended behind a line feed. */
  lemma TextGrows(ordered: seq<Message>, h: nat, n: nat)
    requires h < n < |ordered|
    ensures TextUpTo(ordered, h, h + 1) == ordered[h].text
    ensures TextUpTo(ordered, h, n + 1) ==
              if (forall j :: h < j <= n ==> NoHeader(ordered[j])) && ordered[n].at - ordered[h].at <= 60_000_000
              then TextUpTo(ordered, h, n) + "\n" + ordered[n].text
              else TextUpTo(ordered, h, n)
  {
    hide Contains, Joined;
    var texts := [ordered[h].text] + Chunks(ordered, h, n);
    JoinedSnoc(texts, ordered[n].text);
    assert [ordered[h].text] + (Chunks(ordered, h, n) + [ordered[n].text]) == texts + [ordered[n].text];
    assert [ordered[h].text] + (Chunks(ordered, h, n) + []) == texts;
    assert [ordered[h].text] + Chunks(ordered, h, h + 1) == [ordered[h].text];
    JoinedOne(ordered[h].text);
    assert IsChunk(ordered, h, n) <==>
      (forall j :: h < j <= n ==> NoHeader(ordered[j])) && ordered[n].at - ordered[h].at <= 60_000_000 by {
      assert forall j :: h < j <= n ==> (NoHeader(ordered[j]) <==> !IsHeader(ordered[j]));
    }
  }

  lemma JoinedOne(text: string)
    ensures Joined([text]) == text
  {
  }

  // ---------------------------------------------------------------- any order of delivery

  predicate DistinctTimes(messages: seq<Message>) {
    forall i, j :: 0 <= i < j < |messages| ==> messages[i].at != messages[j].at
  }

  lemma DescribesUnique(a: map<string, Report>, b: map<string, Report>, ordered: seq<Message>)
    requires Describes(a, ordered) && Describes(b, ordered)
    ensures a == b
  {
    hide LastHeader, Joined, Chunks;
    forall marker ensures marker in a <==> marker in b {
      if marker in REQUIRED_MARKERS {
        assert LastHeader(ordered, |ordered|, marker).Some? || LastHeader(ordered, |ordered|, marker).None?;
      }
    }
  }

  /** With distinct timestamps the order in which the history lists the messages plays no part. */
  lemma OrderIndependent(a: seq<Message>, b: seq<Message>, reportsA: map<string, Report>, reportsB: map<string, Report>)
    requires DistinctTimes(a) && DistinctTimes(b) && forall m :: m in a <==> m in b
    requires Describes(reportsA, Sort(a, Earlier)) && Describes(reportsB, Sort(b, Earlier))
    ensures reportsA == reportsB
  {
    EarlierIsStrict();
    SortAscending(a, Earlier);
    SortAscending(b, Earlier);
    SortSame(a, Earlier);
    SortSame(b, Earlier);
    AscendingUnique(Sort(a, Earlier), Sort(b, Earlier), Earlier);
    DescribesUnique(reportsA, reportsB, Sort(a, Earlier));
  }

  // ---------------------------------------------------------------- the run

  /** All three reports, any two of them within the run window. */
  predicate OneRun(reports: map<string, Report>) {
    && (forall marker :: marker in REQUIRED_MARKERS ==> marker in reports)
    && forall m, n | m in REQUIRED_MARKERS && n in REQUIRED_MARKERS :: reports[m].at - reports[n].at <= RUN_WINDOW
  }

  lemma OneRunIs(reports: map<string, Report>)
    ensures OneRun(reports) <==>
              && WEB_REPORT_MARKER in reports && MOBILE_REPORT_MARKER in reports && SUBSCRIPTIONS_REPORT_MARKER in reports
              && var web, mobile, subscriptions :=
                   reports[WEB_REPORT_MARKER].at, reports[MOBILE_REPORT_MARKER].at, reports[SUBSCRIPTIONS_REPORT_MARKER].at;
                 && -3_600_000_000 <= web - mobile <= 3_600_000_000
                 && -3_600_000_000 <= mobile - subscriptions <= 3_600_000_000
                 && -3_600_000_000 <= web - subscriptions <= 3_600_000_000
  {
    assert REQUIRED_MARKERS[0] == WEB_REPORT_MARKER && REQUIRED_MARKERS[1] == MOBILE_REPORT_MARKER;
    assert REQUIRED_MARKERS[2] == SUBSCRIPTIONS_REPORT_MARKER;
    assert forall marker :: marker in REQUIRED_MARKERS ==>
      marker == WEB_REPORT_MARKER || marker == MOBILE_REPORT_MARKER || marker == SUBSCRIPTIONS_REPORT_MARKER;
  }

  method CompleteRun(reports: map<string, Report>) returns (r: Option<map<string, Report>>)
    ensures r.Some? <==> OneRun(reports)
    // all three are there and no two of them are more than an hour apart
    ensures r.Some? <==>
              && WEB_REPORT_MARKER in reports && MOBILE_REPORT_MARKER in reports && SUBSCRIPTIONS_REPORT_MARKER in reports
              && var web, mobile, subscriptions :=
                   reports[WEB_REPORT_MARKER].at, reports[MOBILE_REPORT_MARKER].at, reports[SUBSCRIPTIONS_REPORT_MARKER].at;
                 && -3_600_000_000 <= web - mobile <= 3_600_000_000
                 && -3_600_000_000 <= mobile - subscriptions <= 3_600_000_000
                 && -3_600_000_000 <= web - subscriptions <= 3_600_000_000
    ensures r.Some? ==> r.value == map marker | marker in REQUIRED_MARKERS && marker in reports :: reports[marker]
  {
    OneRunIs(reports);
    if exists marker :: marker in REQUIRED_MARKERS && marker !in reports {
      return None;
    }
    assert REQUIRED_MARKERS[0] in REQUIRED_MARKERS;
    var least, most := reports[REQUIRED_MARKERS[0]].at, reports[REQUIRED_MARKERS[0]].at;
    for k := 1 to |REQUIRED_MARKERS|
      invariant exists i :: 0 <= i < k && reports[REQUIRED_MARKERS[i]].at == least
      invariant exists i :: 0 <= i < k && reports[REQUIRED_MARKERS[i]].at == most
      invariant forall i :: 0 <= i < k ==> least <= reports[REQUIRED_MARKERS[i]].at <= most
    {
      assert REQUIRED_MARKERS[k] in REQUIRED_MARKERS;
      least := if reports[REQUIRED_MARKERS[k]].at < least then reports[REQUIRED_MARKERS[k]].at else least;
      most := if reports[REQUIRED_MARKERS[k]].at > most then reports[REQUIRED_MARKERS[k]].at else most;
    }
    if most - least > RUN_WINDOW {
      return None;
    }
    r := Some(map marker | marker in REQUIRED_MARKERS && marker in reports :: reports[marker]);
  }

  // ---------------------------------------------------------------- the run as a function of the messages

  /** The one dictionary that describes the messages. */
  function Assembled(ordered: seq<Message>): map<string, Report> {
    map marker | marker in REQUIRED_MARKERS && LastHeader(ordered, |ordered|, marker).Some? ::
      var h := LastHeader(ordered, |ordered|, marker).value;
      Report(marker, ordered[h].at, Joined([ordered[h].text] + Chunks(ordered, h, |ordered|)))
  }

  lemma AssembledDescribes(ordered: seq<Message>)
    ensures Describes(Assembled(ordered), ordered)
  {
    hide LastHeader, Joined, Chunks, ReportMarker;
  }

  predicate HasAll(reports: map<string, Report>) {
    WEB_REPORT_MARKER in reports && MOBILE_REPORT_MARKER in reports && SUBSCRIPTIONS_REPORT_MARKER in reports
  }

  /** `max(report.ts ...)` over the three reports of a run. */
  function LatestReport(reports: map<string, Report>): (r: int)
    requires HasAll(reports)
    ensures exists marker :: marker in REQUIRED_MARKERS && marker in reports && reports[marker].at == r
    ensures forall marker :: marker in REQUIRED_MARKERS && marker in reports ==> reports[marker].at <= r
  {
    var web, mobile, subscriptions :=
      reports[WEB_REPORT_MARKER].at, reports[MOBILE_REPORT_MARKER].at, reports[SUBSCRIPTIONS_REPORT_MARKER].at;
    assert REQUIRED_MARKERS[0] == WEB_REPORT_MARKER && REQUIRED_MARKERS[1] == MOBILE_REPORT_MARKER;
    assert REQUIRED_MARKERS[2] == SUBSCRIPTIONS_REPORT_MARKER;
    if web >= mobile && web >= subscriptions then web else if mobile >= subscriptions then mobile else subscriptions
  }

  lemma OneRunHasAll(reports: map<string, Report>)
    requires OneRun(reports)
    ensures HasAll(reports)
  {
    assert REQUIRED_MARKERS[0] == WEB_REPORT_MARKER && REQUIRED_MARKERS[1] == MOBILE_REPORT_MARKER;
    assert REQUIRED_MARKERS[2] == SUBSCRIPTIONS_REPORT_MARKER;
  }

  /** The time of the last report of the complete run that the messages hold, if they hold one. */
  function RunEnd(messages: seq<Message>): Option<int> {
    var reports := Assembled(Sort(messages, Earlier));
    if OneRun(reports) then
      OneRunHasAll(reports);
      Some(LatestReport(reports))
    else None
  }
}
