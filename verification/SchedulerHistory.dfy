/** `_one_systemd_scheduler_history`: journal lines of one scheduled job folded into its runs, then
    supplemented from the durable run table. */
module SchedulerHistory {

  type Time = string

  datatype Status =
    | Scheduled
    | Started
    | Completed
    | Failed
    | Cancelled
    | Interrupted
    | Running
    | Other(name: string)

  /** What a classified journal line reports. */
  datatype Kind = Planned | Start | Success | Failure

  datatype Entry = Entry(time: Time, kind: Kind)

  datatype Row = Row(time: Time, status: Status)

  /** A row of the durable run table. */
  datatype DurableRun = DurableRun(name: string, createdAt: Time, status: Status)

  datatype Job = Job(firstRunName: string, otherRunNames: set<string>, name: string)

  function StatusOf(kind: Kind): Status {
    match kind
    case Planned => Scheduled
    case Start => Started
    case Success => Completed
    case Failure => Failed
  }

  /** The durable table knows how a run started at that second ended. */
  predicate Known(durable: map<Time, Status>, time: Time) {
    time in durable && (durable[time].Completed? || durable[time].Failed? || durable[time].Cancelled?)
  }

  /** A start that supersedes the pending ones. */
  predicate Supersedes(e: Entry, durable: map<Time, Status>) {
    e.kind.Start? && !Known(durable, e.time)
  }

  predicate Closes(e: Entry) {
    e.kind.Success? || e.kind.Failure?
  }

  // ---------------------------------------------------------------- what a run's row must say

  /** What becomes of a pending run, read off the entries after its start: `above` runs were
      started later and are still pending. A terminal entry ends the latest pending run; a
      superseding start ends them all. */
  function Fate(status: Status, above: nat, rest: seq<Entry>, durable: map<Time, Status>): Status
    decreases |rest|
  {
    if rest == [] then status
    else
      var e := rest[0];
      if Supersedes(e, durable) then (if status.Started? then Interrupted else status)
      else if e.kind.Start? then Fate(status, above + 1, rest[1..], durable)
      else if e.kind.Planned? then Fate(status, above, rest[1..], durable)
      else if above == 0 then StatusOf(e.kind)
      else Fate(status, above - 1, rest[1..], durable)
  }

  /** The rows of the entries when `pending` runs are open before them: one row for every planned
      run and every start, the latter with its fate, and one for a terminal entry that ends
      nothing. */
  function Ledger(entries: seq<Entry>, pending: nat, durable: map<Time, Status>): seq<Row> {
    if entries == [] then []
    else
      var e, rest := entries[0], entries[1..];
      match e.kind
      case Planned => [Row(e.time, Scheduled)] + Ledger(rest, pending, durable)
      case Start =>
        if Known(durable, e.time)
        then [Row(e.time, Fate(durable[e.time], 0, rest, durable))] + Ledger(rest, pending + 1, durable)
        else [Row(e.time, Fate(Started, 0, rest, durable))] + Ledger(rest, 1, durable)
      case _ =>
        if pending > 0 then Ledger(rest, pending - 1, durable)
        else [Row(e.time, StatusOf(e.kind))] + Ledger(rest, 0, durable)
  }

  // ---------------------------------------------------------------- the stack that computes it

  /** Indices of rows, latest on top. */
  predicate Stacked(pending: seq<nat>, size: nat) {
    && (forall j :: 0 <= j < |pending| ==> pending[j] < size)
    && (forall j, k :: 0 <= j < k < |pending| ==> pending[j] < pending[k])
  }

  /** The rows so far, their pending indices and the entries still to come head for `full`. */
  predicate HeadsFor(rows: seq<Row>, pending: seq<nat>, rest: seq<Entry>, durable: map<Time, Status>, full: seq<Row>) {
    && Stacked(pending, |rows|)
    && |rows| <= |full|
    && full[|rows|..] == Ledger(rest, |pending|, durable)
    && (forall i :: 0 <= i < |rows| && i !in pending ==> full[i] == rows[i])
    && (forall j | 0 <= j < |pending| ::
          full[pending[j]] == rows[pending[j]].(status := Fate(rows[pending[j]].status, |pending| - 1 - j, rest, durable)))
  }

  /** A row that stays as it is. */
  lemma AppendHeads(rows: seq<Row>, pending: seq<nat>, rest: seq<Entry>, durable: map<Time, Status>, full: seq<Row>)
    requires rest != [] && HeadsFor(rows, pending, rest, durable, full)
    requires rest[0].kind.Planned? || (Closes(rest[0]) && pending == [])
    ensures HeadsFor(rows + [Row(rest[0].time, StatusOf(rest[0].kind))], pending, rest[1..], durable, full)
  {
    FirstOfRest(full, |rows|, Row(rest[0].time, StatusOf(rest[0].kind)), Ledger(rest[1..], |pending|, durable));
  }

  lemma FirstOfRest(full: seq<Row>, n: nat, first: Row, tail: seq<Row>)
    requires n <= |full| && full[n..] == [first] + tail
    ensures n + 1 <= |full| && full[n] == first && full[n + 1..] == tail
  {
    assert full[n..][0] == full[n];
    assert full[n..][1..] == full[n + 1..];
  }

  /** A run the durable table knows: pushed on top of the pending ones. */
  lemma PushHeads(rows: seq<Row>, pending: seq<nat>, rest: seq<Entry>, durable: map<Time, Status>, full: seq<Row>)
    requires rest != [] && HeadsFor(rows, pending, rest, durable, full)
    requires rest[0].kind.Start? && Known(durable, rest[0].time)
    ensures HeadsFor(rows + [Row(rest[0].time, durable[rest[0].time])], pending + [|rows|], rest[1..], durable, full)
  {
    var e, known := rest[0], durable[rest[0].time];
    FirstOfRest(full, |rows|, Row(e.time, Fate(known, 0, rest[1..], durable)), Ledger(rest[1..], |pending| + 1, durable));
  }

  /** All pending runs are done with; the new one is the only pending one. */
  lemma SupersedeHeads(rows: seq<Row>, pending: seq<nat>, rest: seq<Entry>, durable: map<Time, Status>, full: seq<Row>,
      marked: seq<Row>)
    requires rest != [] && HeadsFor(rows, pending, rest, durable, full) && Supersedes(rest[0], durable)
    requires Marked(rows, pending, marked, |pending|)
    ensures HeadsFor(marked + [Row(rest[0].time, Started)], [|rows|], rest[1..], durable, full)
  {
    FirstOfRest(full, |rows|, Row(rest[0].time, Fate(Started, 0, rest[1..], durable)), Ledger(rest[1..], 1, durable));
    forall i | 0 <= i < |rows| ensures full[i] == marked[i] {
      if i in pending {
        var j :| 0 <= j < |pending| && pending[j] == i;
        assert full[pending[j]] == rows[i].(status := Fate(rows[i].status, |pending| - 1 - j, rest, durable));
      }
    }
  }

  function Interruption(row: Row): Row {
    if row.status.Started? then row.(status := Interrupted) else row
  }

  /** The first `n` pending rows that were only started are marked interrupted. */
  predicate Marked(rows: seq<Row>, pending: seq<nat>, marked: seq<Row>, n: nat) {
    && |marked| == |rows|
    && Stacked(pending, |rows|)
    && n <= |pending|
    && (forall i :: 0 <= i < |rows| && i !in pending[..n] ==> marked[i] == rows[i])
    && (forall j :: 0 <= j < n ==> marked[pending[j]] == Interruption(rows[pending[j]]))
  }

  /** A terminal entry closes the latest pending run. */
  lemma PopHeads(rows: seq<Row>, pending: seq<nat>, rest: seq<Entry>, durable: map<Time, Status>, full: seq<Row>)
    requires rest != [] && HeadsFor(rows, pending, rest, durable, full)
    requires Closes(rest[0]) && pending != []
    ensures var last := pending[|pending| - 1];
            HeadsFor(rows[last := rows[last].(status := StatusOf(rest[0].kind))], pending[..|pending| - 1], rest[1..], durable, full)
  {
    var n := |pending| - 1;
    var last, left := pending[n], pending[..n];
    assert Fate(rows[last].status, 0, rest, durable) == StatusOf(rest[0].kind);
    assert forall i :: i in left ==> i in pending;
    assert forall i :: i in pending ==> i in left || i == last;
    forall j | 0 <= j < n
      ensures full[left[j]] == rows[left[j]].(status := Fate(rows[left[j]].status, n - 1 - j, rest[1..], durable))
    {
      assert left[j] == pending[j] && pending[j] != last;
    }
  }

  /** The rows still shown as started are among the pending starts, and there is at most one: only the
      oldest pending start, to which runs the durable table knows have been added, can be it. */
  predicate OnlyOldestOpen(rows: seq<Row>, pending: seq<nat>) {
    forall i :: 0 <= i < |rows| && rows[i].status.Started? ==> pending != [] && i == pending[0]
  }

  lemma PushOpen(rows: seq<Row>, pending: seq<nat>, row: Row)
    requires OnlyOldestOpen(rows, pending) && !row.status.Started?
    ensures OnlyOldestOpen(rows + [row], pending) && OnlyOldestOpen(rows + [row], pending + [|rows|])
  {
  }

  /** A superseding start is the only row left open. */
  lemma SupersedeOpen(rows: seq<Row>, pending: seq<nat>, marked: seq<Row>, row: Row)
    requires OnlyOldestOpen(rows, pending) && Marked(rows, pending, marked, |pending|)
    ensures OnlyOldestOpen(marked + [row], [|rows|])
  {
    assert pending[..|pending|] == pending;
    forall i | 0 <= i < |rows| ensures !marked[i].status.Started? {
      if i in pending {
        var j :| 0 <= j < |pending| && pending[j] == i;
        assert marked[pending[j]] == Interruption(rows[i]);
      }
    }
  }

  lemma PopOpen(rows: seq<Row>, pending: seq<nat>, status: Status)
    requires OnlyOldestOpen(rows, pending) && Stacked(pending, |rows|) && pending != [] && !status.Started?
    ensures var last := pending[|pending| - 1];
            OnlyOldestOpen(rows[last := rows[last].(status := status)], pending[..|pending| - 1])
  {
  }

  /** The event loop. */
  method History(entries: seq<Entry>, durable: map<Time, Status>) returns (rows: seq<Row>)
    ensures rows == Ledger(entries, 0, durable)
  {
    rows := [];
    var pending: seq<nat> := [];
    ghost var full := Ledger(entries, 0, durable);
    assert entries[0..] == entries;
    hide HeadsFor, OnlyOldestOpen;
    assert OnlyOldestOpen(rows, pending) by {
      NothingOpen();
    }
    assert HeadsFor(rows, pending, entries[0..], durable, full) by {
      EmptyHeads(entries, durable);
    }
    for i := 0 to |entries|
      invariant HeadsFor(rows, pending, entries[i..], durable, full)
      invariant OnlyOldestOpen(rows, pending)
    {
      var e := entries[i];
      assert entries[i..][1..] == entries[i + 1..];
      if e.kind.Start? {
        if Known(durable, e.time) {
          PushHeads(rows, pending, entries[i..], durable, full);
          PushOpen(rows, pending, Row(e.time, durable[e.time]));
          pending := pending + [|rows|];
          rows := rows + [Row(e.time, durable[e.time])];
        } else {
          var marked := MarkInterrupted(rows, pending, entries[i..], durable, full);
          SupersedeHeads(rows, pending, entries[i..], durable, full, marked);
          SupersedeOpen(rows, pending, marked, Row(e.time, Started));
          pending := [|rows|];
          rows := marked + [Row(e.time, Started)];
        }
      } else if Closes(e) && pending != [] {
        PopHeads(rows, pending, entries[i..], durable, full);
        HeadsStacked(rows, pending, entries[i..], durable, full);
        PopOpen(rows, pending, StatusOf(e.kind));
        var last := pending[|pending| - 1];
        pending := pending[..|pending| - 1];
        rows := rows[last := rows[last].(status := StatusOf(e.kind))];
      } else {
        AppendHeads(rows, pending, entries[i..], durable, full);
        PushOpen(rows, pending, Row(e.time, StatusOf(e.kind)));
        rows := rows + [Row(e.time, StatusOf(e.kind))];
      }
    }
    EndHeads(rows, pending, entries[|entries|..], durable, full);
  }

  lemma NothingOpen()
    ensures OnlyOldestOpen([], [])
  {
  }

  lemma EmptyHeads(entries: seq<Entry>, durable: map<Time, Status>)
    ensures HeadsFor([], [], entries, durable, Ledger(entries, 0, durable))
  {
  }

  lemma HeadsStacked(rows: seq<Row>, pending: seq<nat>, rest: seq<Entry>, durable: map<Time, Status>, full: seq<Row>)
    requires HeadsFor(rows, pending, rest, durable, full)
    ensures Stacked(pending, |rows|)
  {
  }

  lemma EndHeads(rows: seq<Row>, pending: seq<nat>, rest: seq<Entry>, durable: map<Time, Status>, full: seq<Row>)
    requires HeadsFor(rows, pending, rest, durable, full) && rest == []
    ensures rows == full
  {
    assert full[|rows|..] == [];
    forall i | 0 <= i < |rows| ensures full[i] == rows[i] {
      if i in pending {
        var j :| 0 <= j < |pending| && pending[j] == i;
        assert full[pending[j]] == rows[i];
      }
    }
  }

  /** The inner loop over the pending starts. */
  method MarkInterrupted(rows: seq<Row>, pending: seq<nat>, ghost rest: seq<Entry>, ghost durable: map<Time, Status>,
      ghost full: seq<Row>) returns (marked: seq<Row>)
    requires HeadsFor(rows, pending, rest, durable, full)
    ensures Marked(rows, pending, marked, |pending|)
  {
    HeadsStacked(rows, pending, rest, durable, full);
    marked := rows;
    for n := 0 to |pending|
      invariant Marked(rows, pending, marked, n)
    {
      assert pending[..n + 1] == pending[..n] + [pending[n]];
      if marked[pending[n]].status.Started? {
        marked := marked[pending[n] := marked[pending[n]].(status := Interrupted)];
      }
    }
  }

  // ---------------------------------------------------------------- what follows for the run list

  function Count(entries: seq<Entry>, kind: Kind): nat {
    if entries == [] then 0 else (if entries[0].kind == kind then 1 else 0) + Count(entries[1..], kind)
  }

  /** Terminal entries that find nothing pending. */
  function Unmatched(entries: seq<Entry>, pending: nat, durable: map<Time, Status>): nat {
    if entries == [] then 0
    else if Supersedes(entries[0], durable) then Unmatched(entries[1..], 1, durable)
    else if entries[0].kind.Start? then Unmatched(entries[1..], pending + 1, durable)
    else if entries[0].kind.Planned? then Unmatched(entries[1..], pending, durable)
    else if pending > 0 then Unmatched(entries[1..], pending - 1, durable)
    else Unmatched(entries[1..], 0, durable) + 1
  }

  /** A matched terminal entry never becomes a second run. */
  lemma {:induction false} RowCount(entries: seq<Entry>, pending: nat, durable: map<Time, Status>)
    ensures |Ledger(entries, pending, durable)|
         == Count(entries, Start) + Count(entries, Planned) + Unmatched(entries, pending, durable)
  {
    if entries != [] {
      var e, rest := entries[0], entries[1..];
      RowCount(rest, if Supersedes(e, durable) then 1
                     else if e.kind.Start? then pending + 1
                     else if Closes(e) && pending > 0 then pending - 1
                     else pending, durable);
    }
  }

  predicate NoSuperseding(entries: seq<Entry>, durable: map<Time, Status>) {
    forall k :: 0 <= k < |entries| ==> !Supersedes(entries[k], durable)
  }

  lemma {:induction false} OpenFate(status: Status, above: nat, rest: seq<Entry>, durable: map<Time, Status>)
    ensures Fate(status, above, rest, durable).Started? ==> status.Started? && NoSuperseding(rest, durable)
    decreases |rest|
  {
    if rest != [] && !Supersedes(rest[0], durable) && (!Closes(rest[0]) || above > 0) {
      OpenFate(status, if rest[0].kind.Start? then above + 1 else if Closes(rest[0]) then above - 1 else above, rest[1..], durable);
      if Fate(status, above, rest, durable).Started? {
        forall k | 0 <= k < |rest| ensures !Supersedes(rest[k], durable) {
          assert k > 0 ==> rest[k] == rest[1..][k - 1];
        }
      }
    }
  }

  lemma {:induction false} QuietLedger(entries: seq<Entry>, pending: nat, durable: map<Time, Status>)
    requires NoSuperseding(entries, durable)
    ensures forall r :: r in Ledger(entries, pending, durable) ==> !r.status.Started?
    decreases |entries|
  {
    if entries != [] {
      var e, rest := entries[0], entries[1..];
      assert !Supersedes(e, durable);
      QuietLedger(rest, if e.kind.Start? then pending + 1 else if Closes(e) && pending > 0 then pending - 1 else pending, durable);
      if e.kind.Start? {
        OpenFate(durable[e.time], 0, rest, durable);
      }
    }
  }

  /** At most one run is shown as still going: the latest start the durable table knows no end of. */
  lemma {:induction false} OneOpenRun(entries: seq<Entry>, pending: nat, durable: map<Time, Status>, i: nat, j: nat)
    requires i < j < |Ledger(entries, pending, durable)|
    ensures !(Ledger(entries, pending, durable)[i].status.Started? && Ledger(entries, pending, durable)[j].status.Started?)
    decreases |entries|
  {
    var e, rest := entries[0], entries[1..];
    var next := if Supersedes(e, durable) then 1
                else if e.kind.Start? then pending + 1
                else if Closes(e) && pending > 0 then pending - 1
                else pending;
    var tail := Ledger(rest, next, durable);
    if Closes(e) && pending > 0 {
      OneOpenRun(rest, next, durable, i, j);
    } else if i > 0 {
      OneOpenRun(rest, next, durable, i - 1, j - 1);
    } else if e.kind.Start? {
      OpenFate(if Known(durable, e.time) then durable[e.time] else Started, 0, rest, durable);
      if NoSuperseding(rest, durable) {
        QuietLedger(rest, next, durable);
        assert tail[j - 1] in tail;
      }
    }
  }

  // ---------------------------------------------------------------- how each run ended, from the entries alone

  /** The durable table has a terminal status for a start at that second. */
  predicate Durable(durable: map<Time, Status>, time: Time) {
    time in durable && (durable[time] == Completed || durable[time] == Failed || durable[time] == Cancelled)
  }

  /** Starts minus terminal entries. */
  function Balance(entries: seq<Entry>): int {
    if entries == [] then 0
    else Balance(entries[1..]) + (match entries[0].kind
                                  case Start => 1
                                  case Success => -1
                                  case Failure => -1
                                  case Planned => 0)
  }

  predicate Terminal(e: Entry) {
    e.kind == Success || e.kind == Failure
  }

  /** A start of a run the durable table knows no end of. */
  predicate Unfinished(e: Entry, durable: map<Time, Status>) {
    e.kind == Start && !Durable(durable, e.time)
  }

  /** Entry `k` ends a run that `above` later ones are still open above: before it there are as many terminal
      entries as runs above and starts, it is the first such, and no unfinished start comes earlier. */
  predicate Ends(rest: seq<Entry>, above: nat, k: nat, durable: map<Time, Status>) {
    && k < |rest| && Terminal(rest[k])
    && above + Balance(rest[..k]) == 0
    && (forall j :: 0 <= j < k && Terminal(rest[j]) ==> above + Balance(rest[..j]) != 0)
    && (forall j :: 0 <= j < k ==> !Unfinished(rest[j], durable))
  }

  /** Entry `k` is the next unfinished start, and nothing has ended the run before it. */
  predicate Cut(rest: seq<Entry>, above: nat, k: nat, durable: map<Time, Status>) {
    && k < |rest| && Unfinished(rest[k], durable)
    && (forall j :: 0 <= j < k ==> !Unfinished(rest[j], durable))
    && (forall j :: 0 <= j < k && Terminal(rest[j]) ==> above + Balance(rest[..j]) != 0)
  }

  lemma BalanceTail(rest: seq<Entry>, k: nat)
    requires 0 < k <= |rest|
    ensures Balance(rest[..k]) == Balance(rest[..1]) + Balance(rest[1..][..k - 1])
  {
    assert rest[..k][1..] == rest[1..][..k - 1];
    assert rest[..1][1..] == [];
  }

  /** One entry further, with `next` runs above. */
  lemma EndsNext(rest: seq<Entry>, above: nat, next: nat, k: nat, durable: map<Time, Status>)
    requires 0 < k < |rest| && !Unfinished(rest[0], durable)
    requires Terminal(rest[0]) ==> above != 0
    requires next == above + Balance(rest[..1])
    ensures Ends(rest, above, k, durable) <==> Ends(rest[1..], next, k - 1, durable)
    ensures Cut(rest, above, k, durable) <==> Cut(rest[1..], next, k - 1, durable)
  {
    hide Balance, Durable;
    var tail := rest[1..];
    BalanceAtStart(rest);
    forall j | 0 < j <= k ensures Balance(rest[..j]) == Balance(rest[..1]) + Balance(tail[..j - 1]) && (j < |rest| ==> rest[j] == tail[j - 1]) {
      BalanceTail(rest, j);
    }
    forall j | 0 <= j < k - 1 ensures Balance(tail[..j]) == Balance(rest[..j + 1]) - Balance(rest[..1]) && tail[j] == rest[j + 1] {
      BalanceTail(rest, j + 1);
    }
  }

  lemma BalanceAtStart(rest: seq<Entry>)
    requires rest != []
    ensures Balance(rest[..0]) == 0
    ensures Balance(rest[..1]) == if rest[0].kind == Start then 1 else if Terminal(rest[0]) then -1 else 0
  {
    assert rest[..1][1..] == [];
  }

  /** The entry that ends a run says how; an unfinished start before that cuts it off; otherwise its status
      stays. */
  ghost predicate Decided(fate: Status, status: Status, above: nat, rest: seq<Entry>, durable: map<Time, Status>) {
    && (forall k: nat :: Ends(rest, above, k, durable) ==> fate == if rest[k].kind == Success then Completed else Failed)
    && (forall k: nat :: Cut(rest, above, k, durable) ==> fate == if status == Started then Interrupted else status)
    && ((forall k: nat :: !Ends(rest, above, k, durable) && !Cut(rest, above, k, durable)) ==> fate == status)
  }

  /** A deciding entry stands one further. */
  lemma PointNext(rest: seq<Entry>, above: nat, next: nat, k: nat, durable: map<Time, Status>)
    requires rest != [] && !Unfinished(rest[0], durable) && (Terminal(rest[0]) ==> above != 0)
    requires next == above + Balance(rest[..1])
    ensures !Ends(rest, above, 0, durable) && !Cut(rest, above, 0, durable)
    ensures Ends(rest, above, k + 1, durable) <==> Ends(rest[1..], next, k, durable)
    ensures Cut(rest, above, k + 1, durable) <==> Cut(rest[1..], next, k, durable)
    ensures Ends(rest, above, k + 1, durable) ==> rest[k + 1] == rest[1..][k]
  {
    BalanceAtStart(rest);
    if k + 1 < |rest| {
      EndsNext(rest, above, next, k + 1, durable);
    }
    hide Balance, Durable;
  }

  lemma DecidedNext(fate: Status, status: Status, above: nat, next: nat, rest: seq<Entry>, durable: map<Time, Status>)
    requires rest != [] && !Unfinished(rest[0], durable) && (Terminal(rest[0]) ==> above != 0)
    requires next == above + Balance(rest[..1])
    requires Decided(fate, status, next, rest[1..], durable)
    ensures Decided(fate, status, above, rest, durable)
  {
    var tail := rest[1..];
    PointNext(rest, above, next, 0, durable);
    forall k: nat
      ensures Ends(rest, above, k, durable) ==> fate == if rest[k].kind == Success then Completed else Failed
      ensures Cut(rest, above, k, durable) ==> fate == if status == Started then Interrupted else status
    {
      if k > 0 {
        PointNext(rest, above, next, k - 1, durable);
        DecidedAt(fate, status, next, tail, k - 1, durable);
        hide Ends, Cut, Decided;
      }
    }
    if forall k: nat :: !Ends(rest, above, k, durable) && !Cut(rest, above, k, durable) {
      forall k: nat ensures !Ends(tail, next, k, durable) && !Cut(tail, next, k, durable) {
        PointNext(rest, above, next, k, durable);
        assert !Ends(rest, above, k + 1, durable) && !Cut(rest, above, k + 1, durable);
        hide Ends, Cut;
      }
    }
    hide Ends, Cut, Balance, Unfinished, Terminal;
  }

  lemma DecidedAt(fate: Status, status: Status, above: nat, rest: seq<Entry>, k: nat, durable: map<Time, Status>)
    requires Decided(fate, status, above, rest, durable)
    ensures Ends(rest, above, k, durable) ==> fate == if rest[k].kind == Success then Completed else Failed
    ensures Cut(rest, above, k, durable) ==> fate == if status == Started then Interrupted else status
  {
    hide Cut, Balance;
  }

  /** An entry that decides at once. */
  lemma DecidedHere(rest: seq<Entry>, above: nat, durable: map<Time, Status>)
    requires rest != []
    ensures Unfinished(rest[0], durable) ==>
              Cut(rest, above, 0, durable) && forall k: nat :: !Ends(rest, above, k, durable) && (k > 0 ==> !Cut(rest, above, k, durable))
    ensures Terminal(rest[0]) && above == 0 ==>
              Ends(rest, above, 0, durable) && forall k: nat :: !Cut(rest, above, k, durable) && (k > 0 ==> !Ends(rest, above, k, durable))
  {
    BalanceAtStart(rest);
    hide Balance, Durable;
  }

  lemma {:induction false} FateIs(status: Status, above: nat, rest: seq<Entry>, durable: map<Time, Status>)
    ensures Decided(Fate(status, above, rest, durable), status, above, rest, durable)
    decreases |rest|
  {
    if rest != [] {
      DecidedHere(rest, above, durable);
      BalanceAtStart(rest);
      hide Balance, Ends, Cut;
      if !Unfinished(rest[0], durable) && (Terminal(rest[0]) ==> above > 0) {
        var next := above + Balance(rest[..1]);
        FateIs(status, next, rest[1..], durable);
        DecidedNext(Fate(status, above, rest, durable), status, above, next, rest, durable);
      }
    }
  }

  /** Terminal entry `e` ends the run that started at entry `s`. */
  predicate Matched(entries: seq<Entry>, s: nat, e: nat, durable: map<Time, Status>) {
    s < e < |entries| && entries[s].kind == Start && Ends(entries[s + 1..], 0, e - s - 1, durable)
  }

  /** Terminal entry `e` ends some run that the entries started. */
  predicate EndsSome(entries: seq<Entry>, e: nat, durable: map<Time, Status>) {
    exists s: nat :: s < e && Matched(entries, s, e, durable)
  }

  /** Terminal entry `e` ends one of the `pending` runs open before. */
  predicate EndsPending(entries: seq<Entry>, pending: nat, e: nat, durable: map<Time, Status>) {
    exists a: nat :: a < pending && Ends(entries, a, e, durable)
  }

  /** How many runs are open after these entries. */
  function OpenAfter(entries: seq<Entry>, pending: nat, durable: map<Time, Status>): nat {
    if entries == [] then pending
    else OpenAfter(entries[1..], Next(entries[0], pending, durable), durable)
  }

  function Next(e: Entry, pending: nat, durable: map<Time, Status>): nat {
    if Unfinished(e, durable) then 1
    else if e.kind == Start then pending + 1
    else if Terminal(e) && pending > 0 then pending - 1
    else pending
  }

  /** Something is open at a terminal entry exactly if it ends one of the runs open before, or one that the
      entries started. */
  lemma {:induction false} OpenIff(entries: seq<Entry>, pending: nat, e: nat, durable: map<Time, Status>)
    requires e < |entries| && Terminal(entries[e])
    ensures OpenAfter(entries[..e], pending, durable) > 0 <==> EndsSome(entries, e, durable) || EndsPending(entries, pending, e, durable)
    decreases |entries|
  {
    BalanceAtStart(entries);
    if e == 0 {
      if pending > 0 {
        assert Ends(entries, 0, 0, durable);
      }
    } else {
      var rest, next := entries[1..], Next(entries[0], pending, durable);
      assert entries[..e][1..] == rest[..e - 1];
      OpenIff(rest, next, e - 1, durable);
      MatchedNext(entries, e, durable);
      EndedNext(entries, pending, e, durable);
      hide EndsSome, EndsPending, Next, Matched;
    }
  }

  lemma MatchedNext(entries: seq<Entry>, e: nat, durable: map<Time, Status>)
    requires 0 < e < |entries|
    ensures EndsSome(entries, e, durable) <==> EndsSome(entries[1..], e - 1, durable) || Matched(entries, 0, e, durable)
  {
    hide Ends;
    var rest, d := entries[1..], e - 1;
    forall s: nat ensures Matched(rest, s, d, durable) == Matched(entries, s + 1, e, durable) {
      if s < d {
        assert entries[s + 2..] == rest[s + 1..];
      }
    }
    if s: nat :| Matched(entries, s, e, durable) && s > 0 {
      var r: nat := s - 1;
      assert Matched(rest, r, d, durable);
    }
  }

  lemma EndedNext(entries: seq<Entry>, pending: nat, e: nat, durable: map<Time, Status>)
    requires 0 < e < |entries|
    ensures EndsPending(entries[1..], Next(entries[0], pending, durable), e - 1, durable)
            <==> EndsPending(entries, pending, e, durable) || Matched(entries, 0, e, durable)
  {
    var rest, first, d := entries[1..], entries[0], e - 1;
    BalanceAtStart(entries);
    NoneEndedPast(entries, e, durable);
    assert Matched(entries, 0, e, durable) <==> first.kind == Start && Ends(rest, 0, d, durable) by {
      assert entries[0 + 1..] == rest;
    }
    if !Unfinished(first, durable) {
      var step := Balance(entries[..1]);
      forall a: nat | (Terminal(first) ==> a != 0)
        ensures a + step >= 0 && (Ends(entries, a, e, durable) <==> Ends(rest, a + step, d, durable))
      {
        EndsNext(entries, a, a + step, e, durable);
      }
      Shift(entries, rest, pending, e, d, step, durable);
    }
  }

  /** Counting from one entry further on shifts the runs above by that entry's step. */
  lemma Shift(entries: seq<Entry>, rest: seq<Entry>, pending: nat, e: nat, d: nat, step: int, durable: map<Time, Status>)
    requires -1 <= step <= 1
    requires forall a: nat :: a + step >= 0 ==> (Ends(entries, a, e, durable) <==> Ends(rest, a + step, d, durable))
    requires step == -1 ==> !Ends(entries, 0, e, durable)
    ensures var next := if step == -1 && pending == 0 then 0 else pending + step;
            EndsPending(rest, next, d, durable) <==> EndsPending(entries, pending, e, durable) || (step == 1 && Ends(rest, 0, d, durable))
  {
    hide Ends;
    var next := if step == -1 && pending == 0 then 0 else pending + step;
    if a: nat :| a < pending && Ends(entries, a, e, durable) {
      var b: nat := a + step;
      assert b < next && Ends(rest, b, d, durable);
    }
    if b: nat :| b < next && Ends(rest, b, d, durable) {
      if b - step >= 0 {
        var a: nat := b - step;
        assert a + step == b && Ends(entries, a, e, durable);
      }
    }
  }

  lemma NoneEndedPast(entries: seq<Entry>, e: nat, durable: map<Time, Status>)
    requires 0 < e < |entries|
    ensures Unfinished(entries[0], durable) ==> forall a: nat :: !Ends(entries, a, e, durable)
    ensures Terminal(entries[0]) ==> !Ends(entries, 0, e, durable)
  {
    BalanceAtStart(entries);
    hide Balance;
  }

  /** One entry and its row, if it has one. */
  lemma LedgerStep(entries: seq<Entry>, pending: nat, durable: map<Time, Status>)
    requires entries != []
    ensures var full, own := Ledger(entries, pending, durable), if Terminal(entries[0]) && pending > 0 then 0 else 1;
            |full| >= own && full[own..] == Ledger(entries[1..], Next(entries[0], pending, durable), durable)
  {
    hide Fate;
  }

  /** The rows behind those of the first `n` entries. */
  lemma {:induction false} LedgerFrom(entries: seq<Entry>, pending: nat, n: nat, durable: map<Time, Status>)
    requires n <= |entries|
    ensures var full, before := Ledger(entries, pending, durable), |Ledger(entries[..n], pending, durable)|;
            before <= |full| && full[before..] == Ledger(entries[n..], OpenAfter(entries[..n], pending, durable), durable)
    decreases |entries|
  {
    if n == 0 {
      assert entries[..0] == [] && entries[0..] == entries;
      var full := Ledger(entries, pending, durable);
      assert full[0..] == full;
    } else {
      var rest, next := entries[1..], Next(entries[0], pending, durable);
      assert entries[..n][1..] == rest[..n - 1] && rest[n - 1..] == entries[n..];
      LedgerFrom(rest, next, n - 1, durable);
      LedgerStep(entries, pending, durable);
      LedgerStep(entries[..n], pending, durable);
      hide Ledger, Next, Durable;
      var own := if Terminal(entries[0]) && pending > 0 then 0 else 1;
      var full, before := Ledger(entries, pending, durable), |Ledger(entries[..n], pending, durable)|;
      assert full[before..] == full[own..][before - own..];
    }
  }

  /** The row of a start. A start the durable table knows is shown with that status, any other as started,
      unless later entries decide otherwise. */
  lemma StartRow(entries: seq<Entry>, s: nat, durable: map<Time, Status>)
    requires s < |entries| && entries[s].kind == Start
    ensures var rows, n, rest := Ledger(entries, 0, durable), |Ledger(entries[..s], 0, durable)|, entries[s + 1..];
            && n < |rows| && rows[n].time == entries[s].time
            && Decided(rows[n].status, if Durable(durable, entries[s].time) then durable[entries[s].time] else Started, 0, rest, durable)
  {
    LedgerFrom(entries, 0, s, durable);
    var rest := entries[s..];
    assert rest[0] == entries[s] && rest[1..] == entries[s + 1..];
    var own := if Durable(durable, entries[s].time) then durable[entries[s].time] else Started;
    FateIs(own, 0, rest[1..], durable);
    hide Decided, Fate;
    FirstRow(Ledger(entries, 0, durable), |Ledger(entries[..s], 0, durable)|, rest, OpenAfter(entries[..s], 0, durable), durable);
  }

  lemma FirstRow(rows: seq<Row>, n: nat, rest: seq<Entry>, pending: nat, durable: map<Time, Status>)
    requires rest != [] && n <= |rows| && rows[n..] == Ledger(rest, pending, durable)
    requires !Closes(rest[0]) || pending == 0
    ensures n < |rows| && rows[n] == Ledger(rest, pending, durable)[0]
  {
    hide Fate;
    assert rows[n..] != [] && rows[n..][0] == rows[n];
  }

  /** The row of a start the durable table does not know, status by status. */
  lemma UnfinishedRow(entries: seq<Entry>, s: nat, durable: map<Time, Status>)
    requires s < |entries| && Unfinished(entries[s], durable)
    ensures var rows, n, rest := Ledger(entries, 0, durable), |Ledger(entries[..s], 0, durable)|, entries[s + 1..];
            && n < |rows| && rows[n].time == entries[s].time
            && (rows[n].status == Completed <==> exists k: nat :: Ends(rest, 0, k, durable) && rest[k].kind == Success)
            && (rows[n].status == Failed <==> exists k: nat :: Ends(rest, 0, k, durable) && rest[k].kind == Failure)
            && (rows[n].status == Interrupted <==> exists k: nat :: Cut(rest, 0, k, durable))
            && (rows[n].status == Started <==> forall k: nat :: !Ends(rest, 0, k, durable) && !Cut(rest, 0, k, durable))
  {
    StartRow(entries, s, durable);
    hide Ledger, Cut;
    var rest := entries[s + 1..];
    forall k: nat | Ends(rest, 0, k, durable) ensures k < |rest| && (rest[k].kind == Success || rest[k].kind == Failure) {
    }
    hide Ends;
  }

  /** A terminal entry that ends a run has no row of its own; any other has one that says how it ended. */
  lemma TerminalRow(entries: seq<Entry>, e: nat, durable: map<Time, Status>)
    requires e < |entries| && Terminal(entries[e])
    ensures var rows, n := Ledger(entries, 0, durable), |Ledger(entries[..e], 0, durable)|;
            if EndsSome(entries, e, durable) then |Ledger(entries[..e + 1], 0, durable)| == n
            else n < |rows| && rows[n] == Row(entries[e].time, if entries[e].kind == Success then Completed else Failed)
  {
    OpenIff(entries, 0, e, durable);
    LedgerFrom(entries, 0, e, durable);
    var open := OpenAfter(entries[..e], 0, durable);
    var rest := entries[e..];
    assert rest[0] == entries[e];
    hide EndsSome, OpenAfter, Fate;
    if open > 0 {
      LedgerSnoc(entries, e, durable);
    } else {
      FirstRow(Ledger(entries, 0, durable), |Ledger(entries[..e], 0, durable)|, rest, open, durable);
    }
  }

  lemma LedgerSnoc(entries: seq<Entry>, e: nat, durable: map<Time, Status>)
    requires e < |entries| && Terminal(entries[e]) && OpenAfter(entries[..e], 0, durable) > 0
    ensures |Ledger(entries[..e + 1], 0, durable)| == |Ledger(entries[..e], 0, durable)|
  {
    var longer := entries[..e + 1];
    LedgerFrom(longer, 0, e, durable);
    assert longer[..e] == entries[..e] && longer[e..] == [entries[e]] && [entries[e]][1..] == [];
    var open := OpenAfter(entries[..e], 0, durable);
    assert Ledger([entries[e]], open, durable) == Ledger([], open - 1, durable);
    hide Ledger, OpenAfter;
    var full, n := Ledger(longer, 0, durable), |Ledger(entries[..e], 0, durable)|;
    assert |full[n..]| == 0;
  }

  /** A planned run is shown as scheduled. */
  lemma PlannedRow(entries: seq<Entry>, e: nat, durable: map<Time, Status>)
    requires e < |entries| && entries[e].kind == Planned
    ensures var rows, n := Ledger(entries, 0, durable), |Ledger(entries[..e], 0, durable)|;
            n < |rows| && rows[n] == Row(entries[e].time, Scheduled)
  {
    LedgerFrom(entries, 0, e, durable);
    var rest := entries[e..];
    assert rest[0] == entries[e];
    hide OpenAfter, Fate;
    FirstRow(Ledger(entries, 0, durable), |Ledger(entries[..e], 0, durable)|, rest, OpenAfter(entries[..e], 0, durable), durable);
  }

  // ---------------------------------------------------------------- the durable run table

  function DurableStatuses(job: Job, runs: seq<DurableRun>): map<Time, Status> {
    if runs == [] then map[]
    else
      var r := runs[|runs| - 1];
      var earlier := DurableStatuses(job, runs[..|runs| - 1]);
      if r.name in job.otherRunNames + {job.firstRunName, job.name} then earlier[r.createdAt := r.status] else earlier
  }

  predicate FirstStage(job: Job, r: DurableRun) {
    r.name == job.firstRunName || r.name == job.name
  }

  function Supplied(r: DurableRun): Row {
    Row(r.createdAt, if r.status.Running? then Started else r.status)
  }

  /** Times of the rows that stand for a run. */
  function RunTimes(rows: seq<Row>): set<Time> {
    set r | r in rows && !r.status.Scheduled? :: r.time
  }

  predicate FirstOfItsTime(job: Job, runs: seq<DurableRun>, i: nat)
    requires i < |runs|
  {
    && FirstStage(job, runs[i])
    && forall h :: 0 <= h < i && FirstStage(job, runs[h]) ==> runs[h].createdAt != runs[i].createdAt
  }

  /** Rows behind the journal's are durable runs that it does not show, each time once. */
  predicate Added(job: Job, journal: seq<Row>, runs: seq<DurableRun>, rows: seq<Row>) {
    && |journal| <= |rows| && rows[..|journal|] == journal
    && (forall k :: |journal| <= k < |rows| ==>
          rows[k].time !in RunTimes(journal) && exists r :: r in runs && FirstStage(job, r) && rows[k] == Supplied(r))
    && (forall k, l :: |journal| <= k < l < |rows| ==> rows[k].time != rows[l].time)
  }

  /** Of the first `n` durable runs none is missing: the journal shows its time, or the time has been
      added with the first run of that time. */
  predicate Covered(job: Job, journal: seq<Row>, runs: seq<DurableRun>, n: nat, rows: seq<Row>)
    requires n <= |runs| && |journal| <= |rows|
  {
    forall i | 0 <= i < n && FirstStage(job, runs[i]) :: runs[i].createdAt !in RunTimes(journal) ==>
      && (exists k :: |journal| <= k < |rows| && rows[k].time == runs[i].createdAt)
      && (FirstOfItsTime(job, runs, i) ==> Supplied(runs[i]) in rows[|journal|..])
  }

  ghost predicate SeenTimes(job: Job, journal: seq<Row>, runs: seq<DurableRun>, n: nat, rows: seq<Row>, seen: set<Time>)
    requires n <= |runs|
  {
    && (forall t :: t in seen <==>
          t in RunTimes(journal) || exists h :: 0 <= h < n && FirstStage(job, runs[h]) && runs[h].createdAt == t)
    && (forall k :: |journal| <= k < |rows| ==> rows[k].time in seen)
  }

  lemma AddRun(job: Job, journal: seq<Row>, runs: seq<DurableRun>, n: nat, rows: seq<Row>, seen: set<Time>)
    requires n < |runs| && Added(job, journal, runs, rows) && SeenTimes(job, journal, runs, n, rows, seen)
    requires FirstStage(job, runs[n]) && runs[n].createdAt !in seen
    ensures Added(job, journal, runs, rows + [Supplied(runs[n])])
    ensures SeenTimes(job, journal, runs, n + 1, rows + [Supplied(runs[n])], seen + {runs[n].createdAt})
  {
    hide FirstStage, RunTimes;
    var more := rows + [Supplied(runs[n])];
    assert more[|rows|] == Supplied(runs[n]);
    assert forall k :: |journal| <= k < |rows| ==> more[k] == rows[k];
  }

  lemma CoverAdded(job: Job, journal: seq<Row>, runs: seq<DurableRun>, n: nat, rows: seq<Row>)
    requires n < |runs| && |journal| <= |rows| && Covered(job, journal, runs, n, rows)
    ensures Covered(job, journal, runs, n + 1, rows + [Supplied(runs[n])])
  {
    hide FirstStage, FirstOfItsTime, RunTimes;
    var more := rows + [Supplied(runs[n])];
    assert more[|rows|] == Supplied(runs[n]);
    assert more[|journal|..] == rows[|journal|..] + [Supplied(runs[n])];
    forall i | 0 <= i < n && FirstStage(job, runs[i]) && runs[i].createdAt !in RunTimes(journal)
      ensures exists k :: |journal| <= k < |more| && more[k].time == runs[i].createdAt
    {
      var k :| |journal| <= k < |rows| && rows[k].time == runs[i].createdAt;
      assert more[k] == rows[k];
    }
  }

  /** A run of another stage, or of a time already seen. */
  lemma CoverSkipped(job: Job, journal: seq<Row>, runs: seq<DurableRun>, n: nat, rows: seq<Row>, seen: set<Time>)
    requires n < |runs| && |journal| <= |rows| && Covered(job, journal, runs, n, rows)
    requires SeenTimes(job, journal, runs, n, rows, seen)
    requires FirstStage(job, runs[n]) ==> runs[n].createdAt in seen
    ensures Covered(job, journal, runs, n + 1, rows) && SeenTimes(job, journal, runs, n + 1, rows, seen)
  {
    hide FirstStage, RunTimes;
    if FirstStage(job, runs[n]) && runs[n].createdAt !in RunTimes(journal) {
      var h :| 0 <= h < n && FirstStage(job, runs[h]) && runs[h].createdAt == runs[n].createdAt;
      assert !FirstOfItsTime(job, runs, n);
    }
  }

  /** Durable runs the journal no longer shows are added, each time once and none that it shows.
      Every first-stage run is then in the list. */
  method Supplement(job: Job, journal: seq<Row>, runs: seq<DurableRun>) returns (rows: seq<Row>)
    ensures Added(job, journal, runs, rows)
    ensures Covered(job, journal, runs, |runs|, rows)
  {
    hide RunTimes, FirstStage, SeenTimes, Covered;
    rows := journal;
    var seen := RunTimes(journal);
    NothingAdded(job, journal, runs);
    for i := 0 to |runs|
      invariant Added(job, journal, runs, rows)
      invariant SeenTimes(job, journal, runs, i, rows, seen)
      invariant Covered(job, journal, runs, i, rows)
    {
      var r := runs[i];
      if !FirstStage(job, r) || r.createdAt in seen {
        CoverSkipped(job, journal, runs, i, rows, seen);
        continue;
      }
      AddRun(job, journal, runs, i, rows, seen);
      CoverAdded(job, journal, runs, i, rows);
      rows := rows + [Supplied(r)];
      seen := seen + {r.createdAt};
    }
  }

  lemma NothingAdded(job: Job, journal: seq<Row>, runs: seq<DurableRun>)
    ensures SeenTimes(job, journal, runs, 0, journal, RunTimes(journal)) && Covered(job, journal, runs, 0, journal)
  {
  }

  /** Run `i` is the last one of the job in that second. */
  predicate LastThen(job: Job, runs: seq<DurableRun>, i: nat, t: Time) {
    && i < |runs| && OfJob(job, runs[i]) && runs[i].createdAt == t
    && forall j :: i < j < |runs| && OfJob(job, runs[j]) ==> runs[j].createdAt != t
  }

  /** The status the durable table has for a second is that of the last run then, of any stage of the job. */
  lemma {:induction false} DurableIs(job: Job, runs: seq<DurableRun>, t: Time)
    ensures t in DurableStatuses(job, runs) <==> exists i: nat :: i < |runs| && LastThen(job, runs, i, t)
    ensures forall i: nat :: LastThen(job, runs, i, t) ==> t in DurableStatuses(job, runs) && DurableStatuses(job, runs)[t] == runs[i].status
    decreases |runs|
  {
    if runs != [] {
      var n := |runs| - 1;
      DurableIs(job, runs[..n], t);
      hide DurableStatuses;
      DurableStep(job, runs);
      if OfJob(job, runs[n]) && runs[n].createdAt == t {
        assert LastThen(job, runs, n, t);
      } else {
        forall i: nat ensures LastThen(job, runs, i, t) <==> LastThen(job, runs[..n], i, t) {
          LastStays(job, runs, i, t);
        }
        hide LastThen;
      }
    }
  }

  lemma DurableStep(job: Job, runs: seq<DurableRun>)
    requires runs != []
    ensures var n := |runs| - 1;
            DurableStatuses(job, runs) == if OfJob(job, runs[n]) then DurableStatuses(job, runs[..n])[runs[n].createdAt := runs[n].status]
                                          else DurableStatuses(job, runs[..n])
  {
  }

  lemma LastStays(job: Job, runs: seq<DurableRun>, i: nat, t: Time)
    requires runs != [] && (!OfJob(job, runs[|runs| - 1]) || runs[|runs| - 1].createdAt != t)
    ensures LastThen(job, runs, i, t) <==> LastThen(job, runs[..|runs| - 1], i, t)
  {
    hide OfJob;
    var earlier := runs[..|runs| - 1];
    assert forall j :: 0 <= j < |earlier| ==> earlier[j] == runs[j];
  }

  predicate OfJob(job: Job, r: DurableRun) {
    r.name == job.name || r.name == job.firstRunName || r.name in job.otherRunNames
  }

  /** A row that stands for a durable run of the first stage; one still running is shown as started. */
  predicate ShowsRun(job: Job, r: DurableRun, row: Row) {
    && (r.name == job.firstRunName || r.name == job.name)
    && row == Row(r.createdAt, if r.status == Running then Started else r.status)
  }

  /** The row shows a durable run that the journal shows at most as planned. */
  predicate ShowsMissing(job: Job, journal: seq<Row>, runs: seq<DurableRun>, row: Row) {
    && (exists r :: r in runs && ShowsRun(job, r, row))
    && forall i :: 0 <= i < |journal| && journal[i].time == row.time ==> journal[i].status == Scheduled
  }

  lemma AddedShow(job: Job, journal: seq<Row>, runs: seq<DurableRun>, rows: seq<Row>, k: nat)
    requires Added(job, journal, runs, rows) && |journal| <= k < |rows|
    ensures ShowsMissing(job, journal, runs, rows[k])
  {
    assert rows[k].time !in RunTimes(journal);
    var r :| r in runs && FirstStage(job, r) && rows[k] == Supplied(r);
    assert ShowsRun(job, r, rows[k]);
  }

  /** Both parts together: the journal's ledger comes first, behind it only durable runs of the first stage
      that it does not show, each second once, and journal retention loses none of them. */
  method JobHistory(job: Job, entries: seq<Entry>, runs: seq<DurableRun>) returns (rows: seq<Row>)
    ensures var ledger := Ledger(entries, 0, DurableStatuses(job, runs));
            && |ledger| <= |rows| && rows[..|ledger|] == ledger
            && (forall k :: |ledger| <= k < |rows| ==> ShowsMissing(job, ledger, runs, rows[k]))
            && (forall k, l :: |ledger| <= k < l < |rows| ==> rows[k].time != rows[l].time)
            && forall i :: 0 <= i < |runs| && (runs[i].name == job.firstRunName || runs[i].name == job.name) ==> Listed(rows, |ledger|, runs[i])
  {
    var journal := History(entries, DurableStatuses(job, runs));
    rows := Supplement(job, journal, runs);
    forall k | |journal| <= k < |rows| ensures ShowsMissing(job, journal, runs, rows[k]) {
      AddedShow(job, journal, runs, rows, k);
    }
    forall i | 0 <= i < |runs| && (runs[i].name == job.firstRunName || runs[i].name == job.name) ensures Listed(rows, |journal|, runs[i]) {
      CoveredListed(job, journal, runs, rows, i);
    }
  }

  /** The run's second has a row: one of the journal's that is not merely planned, or one that was added. */
  predicate Listed(rows: seq<Row>, journal: nat, r: DurableRun) {
    exists k :: 0 <= k < |rows| && rows[k].time == r.createdAt && (k >= journal || rows[k].status != Scheduled)
  }

  lemma CoveredListed(job: Job, journal: seq<Row>, runs: seq<DurableRun>, rows: seq<Row>, i: nat)
    requires Added(job, journal, runs, rows) && Covered(job, journal, runs, |runs|, rows)
    requires i < |runs| && (runs[i].name == job.firstRunName || runs[i].name == job.name)
    ensures Listed(rows, |journal|, runs[i])
  {
    assert FirstStage(job, runs[i]);
    if runs[i].createdAt in RunTimes(journal) {
      var r :| r in journal && !r.status.Scheduled? && r.time == runs[i].createdAt;
      var k :| 0 <= k < |journal| && journal[k] == r;
      assert rows[..|journal|][k] == rows[k];
    }
  }
}
