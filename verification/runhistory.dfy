/** The reconciliation runs of one cabinet and the rows kept of them: where the next window starts, and
    when some session's end falls between two windows. */
module RunHistory {
  import opened Quantities
  import opened Sessions
  import opened RangeRoute

  const OVERLAP: int := 10 * 60 * SECOND
  const DAY: int := 86_400 * SECOND
  const FIRST_LOOKBACK: int := 2 * DAY
  const NIGHTLY_LOOKBACK: int := 30 * DAY

  // ----- runs and their windows -----

  datatype Mode = Range | ByUser

  /** A run's row, with whether it was the nightly pass, the session rows it started from and the
      sessions of the window it applied. */
  datatype RunRow = RunRow(id: nat, startedAt: Time, nightly: bool, mode: Mode, windowFrom: Option<Time>,
                           windowTo: Option<Time>, ok: bool, before: seq<Session>, applied: seq<Entry>)

  predicate Good(r: RunRow) { r.ok && r.mode == Range && r.windowFrom.Some? && r.windowTo.Some? }

  /** Where the last good range run among these rows stopped. */
  function Frontier(runs: seq<RunRow>): Option<Time> {
    if runs == [] then None
    else if Good(runs[|runs| - 1]) then runs[|runs| - 1].windowTo
    else Frontier(runs[..|runs| - 1])
  }

  function WindowFrom(runs: seq<RunRow>, now: Time, nightly: bool): Time {
    if nightly then now - NIGHTLY_LOOKBACK
    else if Frontier(runs).Some? then Frontier(runs).value - OVERLAP
    else now - FIRST_LOOKBACK
  }

  predicate AskedFrom(from: Time, endedAt: Time) { Truncated(from) <= endedAt }

  /** The cabinet is asked for [from, to) as truncated. */
  predicate Asked(r: RunRow, endedAt: Time)
    requires r.windowFrom.Some? && r.windowTo.Some?
  {
    AskedFrom(r.windowFrom.value, endedAt) && endedAt < Truncated(r.windowTo.value)
  }

  /** The frontier is the window's end of the last good run, whatever came after it, and nothing only
      when no run was good. */
  lemma {:induction false} FrontierIs(runs: seq<RunRow>) returns (h: nat)
    ensures Frontier(runs).None? ==> forall i :: 0 <= i < |runs| ==> !Good(runs[i])
    ensures Frontier(runs).Some? ==> h < |runs| && Good(runs[h]) && runs[h].windowTo == Frontier(runs)
    ensures Frontier(runs).Some? ==> forall i :: h < i < |runs| ==> !Good(runs[i])
  {
    h := 0;
    if runs != [] {
      if Good(runs[|runs| - 1]) {
        h := |runs| - 1;
      } else {
        h := FrontierIs(runs[..|runs| - 1]);
      }
    }
  }

  /** A nightly pass looks back 30 days; another run starts ten minutes before the end of the last good
      run's window, or two days back when there is no good run. */
  lemma WindowStarts(runs: seq<RunRow>, now: Time, nightly: bool) returns (h: nat)
    ensures nightly ==> WindowFrom(runs, now, nightly) == now - 30 * 86_400_000_000
    ensures !nightly && (forall i :: 0 <= i < |runs| ==> !Good(runs[i])) ==>
      WindowFrom(runs, now, nightly) == now - 2 * 86_400_000_000
    ensures !nightly && (exists i :: 0 <= i < |runs| && Good(runs[i])) ==>
      && h < |runs| && Good(runs[h]) && (forall i :: h < i < |runs| ==> !Good(runs[i]))
      && WindowFrom(runs, now, nightly) == runs[h].windowTo.value - 600_000_000
  {
    h := FrontierIs(runs);
  }

  /** The wire form of the window has whole seconds: an end is asked for from the second the window
      starts in to the second it ends in. */
  lemma AskedIs(r: RunRow, endedAt: Time)
    requires r.windowFrom.Some? && r.windowTo.Some?
    ensures Asked(r, endedAt) <==>
      r.windowFrom.value - r.windowFrom.value % 1_000_000 <= endedAt < r.windowTo.value - r.windowTo.value % 1_000_000
  {}

  /** No number of failed and by-user runs moves it. */
  lemma {:induction false} FailedRunsKeepFrontier(runs: seq<RunRow>, failed: seq<RunRow>)
    requires forall r :: r in failed ==> !Good(r)
    ensures Frontier(runs + failed) == Frontier(runs)
  {
    if failed == [] {
      assert runs + failed == runs;
    } else {
      FailedRunsKeepFrontier(runs, failed[..|failed| - 1]);
      assert (runs + failed)[..|runs + failed| - 1] == runs + failed[..|failed| - 1];
    }
  }

  lemma {:induction false} NextFrontier(runs: seq<RunRow>, r: RunRow)
    ensures Frontier(runs + [r]) == if Good(r) then r.windowTo else Frontier(runs)
  {
    assert (runs + [r])[..|runs|] == runs;
  }

  // ----- the history of the run rows -----

  const RUNS_KEPT: int := 90 * DAY

  /** A run added its row; retention at some time deleted a chunk of old rows, whichever it took. */
  datatype Event = Ran(run: RunRow) | Swept(at: Time, ids: set<nat>)

  predicate Old(r: RunRow, at: Time) { r.startedAt < at - RUNS_KEPT }

  /** The rows a chunk of the deletion leaves. */
  function Left(rows: seq<RunRow>, at: Time, ids: set<nat>): (l: seq<RunRow>)
    ensures forall r :: r in l <==> r in rows && !(Old(r, at) && r.id in ids)
  {
    if rows == [] then []
    else
      var init, r := rows[..|rows| - 1], rows[|rows| - 1];
      assert forall x :: x in rows <==> x in init || x == r;
      if Old(r, at) && r.id in ids then Left(init, at, ids) else Left(init, at, ids) + [r]
  }

  function After(rows: seq<RunRow>, e: Event): seq<RunRow> {
    match e
    case Ran(r) => rows + [r]
    case Swept(at, ids) => Left(rows, at, ids)
  }

  /** The rows there are. */
  function Stored(events: seq<Event>): seq<RunRow> {
    if events == [] then [] else After(Stored(events[..|events| - 1]), events[|events| - 1])
  }

  /** Where the last good range run stopped, its row kept or not. */
  function LastGood(events: seq<Event>): Option<Time> {
    if events == [] then None
    else
      var e := events[|events| - 1];
      if e.Ran? && Good(e.run) then e.run.windowTo else LastGood(events[..|events| - 1])
  }

  predicate GoodAt(events: seq<Event>, i: nat)
    requires i < |events|
  {
    events[i].Ran? && Good(events[i].run)
  }

  lemma {:induction false} LastGoodIs(events: seq<Event>) returns (h: nat)
    ensures LastGood(events).None? ==> forall i :: 0 <= i < |events| ==> !GoodAt(events, i)
    ensures LastGood(events).Some? ==> h < |events| && GoodAt(events, h) && events[h].run.windowTo == LastGood(events)
    ensures LastGood(events).Some? ==> forall i :: h < i < |events| ==> !GoodAt(events, i)
  {
    h := 0;
    if events != [] {
      var n := |events| - 1;
      if GoodAt(events, n) {
        h := n;
      } else {
        h := LastGoodIs(events[..n]);
        assert forall i :: 0 <= i < n ==> (GoodAt(events, i) <==> GoodAt(events[..n], i));
      }
    }
  }

  /** Each good run took its window from the rows there were, up to its own start. */
  ghost predicate Chained(events: seq<Event>) {
    forall i :: 0 <= i < |events| && GoodAt(events, i) ==> ChainedAt(events, i)
  }

  ghost predicate ChainedAt(events: seq<Event>, i: nat)
    requires i < |events| && events[i].Ran?
  {
    var r := events[i].run;
    && r.windowFrom == Some(WindowFrom(Stored(events[..i]), r.startedAt, r.nightly))
    && r.windowTo == Some(r.startedAt)
  }

  // ----- coverage of ends -----

  /** A window from here leaves a hole after a run that stopped there, less the overlap. */
  predicate LeavesHole(from: Time, last: Time) { last - OVERLAP + 1 < Truncated(from) }

  /** It asks for every end after that exactly when it leaves none. */
  lemma NoHole(from: Time, last: Time)
    ensures (forall e :: last - OVERLAP < e ==> AskedFrom(from, e)) <==> !LeavesHole(from, last)
  {
    assert AskedFrom(from, last - OVERLAP + 1) <==> !LeavesHole(from, last);
  }

  /** A good run left a hole after the good run before it. */
  ghost predicate Outage(events: seq<Event>, i: nat)
    requires i < |events|
  {
    && GoodAt(events, i) && LastGood(events[..i]).Some?
    && LeavesHole(events[i].run.windowFrom.value, LastGood(events[..i]).value)
  }

  /** Some good run asks for the session's end at a time when it must already be visible. */
  lemma {:induction false} SomeRunAsks(events: seq<Event>, endedAt: Time, g: nat) returns (i: nat)
    requires Chained(events) && forall f :: 0 <= f < |events| ==> !Outage(events, f)
    requires g < |events| && GoodAt(events, g) && endedAt + OVERLAP <= events[g].run.startedAt
    requires forall f :: 0 <= f < |events| && GoodAt(events, f) && LastGood(events[..f]).None? ==>
      events[f].run.windowFrom.value <= endedAt
    ensures i <= g && GoodAt(events, i) && endedAt + OVERLAP <= events[i].run.startedAt && Asked(events[i].run, endedAt)
    decreases g
  {
    var last := LastGood(events[..g]);
    assert ChainedAt(events, g);
    if last.Some? && endedAt + OVERLAP <= last.value {
      var h := LastGoodIs(events[..g]);
      assert GoodAt(events, h) && ChainedAt(events, h);
      i := SomeRunAsks(events, endedAt, h);
    } else {
      i := g;
      if last.Some? {
        assert !Outage(events, g);
        NoHole(events[g].run.windowFrom.value, last.value);
      }
    }
  }

  // ----- when a run leaves a hole -----

  function TimeOf(e: Event): Time { if e.Ran? then e.run.startedAt else e.at }

  ghost predicate Chronological(events: seq<Event>) {
    forall i, j :: 0 <= i < j < |events| ==> TimeOf(events[i]) <= TimeOf(events[j])
  }

  /** Every stored row is some run's. */
  lemma {:induction false} StoredRan(events: seq<Event>, r: RunRow) returns (j: nat)
    requires r in Stored(events)
    ensures j < |events| && events[j] == Ran(r)
  {
    var n := |events| - 1;
    if events[n] == Ran(r) {
      j := n;
    } else {
      j := StoredRan(events[..n], r);
    }
  }

  /** A run's row is there until a deletion finds it old. */
  lemma {:induction false} Survives(events: seq<Event>, h: nat)
    requires h < |events| && events[h].Ran?
    requires forall j :: h < j < |events| && events[j].Swept? ==> !Old(events[h].run, events[j].at)
    ensures events[h].run in Stored(events)
  {
    var n := |events| - 1;
    if h < n {
      Survives(events[..n], h);
    }
  }

  lemma {:induction false} GoodRowGivesFrontier(rows: seq<RunRow>, r: RunRow)
    requires r in rows && Good(r)
    ensures Frontier(rows).Some?
  {
    var h := FrontierIs(rows);
    var i :| 0 <= i < |rows| && rows[i] == r;
  }

  /** The last good run's start is at or after every good run's before. */
  lemma GoodBefore(events: seq<Event>, g: nat, i: nat)
    requires Chained(events) && Chronological(events) && i < g <= |events| && GoodAt(events, i)
    ensures LastGood(events[..g]).Some? && events[i].run.startedAt <= LastGood(events[..g]).value
  {
    var h := LastGoodIs(events[..g]);
    assert GoodAt(events[..g], i) && i <= h;
    assert GoodAt(events, h) && ChainedAt(events, h);
    assert TimeOf(events[i]) <= TimeOf(events[h]);
  }

  /** A stored frontier is never past the last good run. */
  lemma FrontierIsNotPast(events: seq<Event>, i: nat)
    requires Chained(events) && Chronological(events) && i <= |events|
    requires Frontier(Stored(events[..i])).Some?
    ensures LastGood(events[..i]).Some? && Frontier(Stored(events[..i])).value <= LastGood(events[..i]).value
  {
    var k := FrontierIs(Stored(events[..i]));
    var j := StoredRan(events[..i], Stored(events[..i])[k]);
    assert GoodAt(events, j) && ChainedAt(events, j);
    GoodBefore(events, i, j);
  }

  /** A good run leaves a hole exactly when it is a nightly pass too long after the last good run, or
      an ordinary one that finds no good row any more and looks back too little. */
  lemma HoleWhen(events: seq<Event>, i: nat)
    requires Chained(events) && Chronological(events) && i < |events| && GoodAt(events, i)
    requires LastGood(events[..i]).Some?
    ensures var now, last := events[i].run.startedAt, LastGood(events[..i]).value;
      Outage(events, i) <==>
        if events[i].run.nightly then LeavesHole(now - NIGHTLY_LOOKBACK, last)
        else Frontier(Stored(events[..i])).None? && LeavesHole(now - FIRST_LOOKBACK, last)
  {
    assert ChainedAt(events, i);
    if !events[i].run.nightly && Frontier(Stored(events[..i])).Some? {
      FrontierIsNotPast(events, i);
      TruncatedIsBefore(events[i].run.windowFrom.value);
    }
  }

  lemma TruncatedIsBefore(t: Time)
    ensures Truncated(t) <= t < Truncated(t) + SECOND
  {}

  lemma TruncatedKeepsOrder(s: Time, t: Time)
    requires s <= t
    ensures Truncated(s) <= Truncated(t)
  {
    assert s / SECOND <= t / SECOND;
    assert Truncated(s) == s / SECOND * SECOND && Truncated(t) == t / SECOND * SECOND;
  }

  /** Good runs no further apart than 30 days less the overlap. */
  ghost predicate CloseRuns(events: seq<Event>) {
    forall i :: 0 <= i < |events| && GoodAt(events, i) && LastGood(events[..i]).Some? ==>
      events[i].run.startedAt - LastGood(events[..i]).value <= NIGHTLY_LOOKBACK - OVERLAP
  }

  /** Such runs leave no hole: the rows are kept longer than that. */
  lemma CloseRunsLeaveNoHole(events: seq<Event>, i: nat)
    requires Chained(events) && Chronological(events) && CloseRuns(events) && i < |events|
    ensures !Outage(events, i)
  {
    if GoodAt(events, i) && LastGood(events[..i]).Some? {
      HoleWhen(events, i);
      var now, last := events[i].run.startedAt, LastGood(events[..i]).value;
      TruncatedIsBefore(now - NIGHTLY_LOOKBACK);
      var h := LastGoodIs(events[..i]);
      assert GoodAt(events, h) && ChainedAt(events, h);
      forall j | h < j < i && events[j].Swept? ensures !Old(events[h].run, events[j].at) {
        assert TimeOf(events[j]) <= TimeOf(events[i]);
      }
      Survives(events[..i], h);
      GoodRowGivesFrontier(Stored(events[..i]), events[h].run);
    }
  }

  // ----- why the premise is needed -----

  /** Every deletion took all it found old. */
  ghost predicate Thorough(events: seq<Event>) {
    forall j, r :: 0 <= j < |events| && events[j].Swept? && r in Stored(events[..j]) && Old(r, events[j].at) ==>
      r.id in events[j].ids
  }

  ghost predicate SortedRows(rows: seq<RunRow>) {
    forall i, j :: 0 <= i < j < |rows| ==> rows[i].startedAt <= rows[j].startedAt
  }

  lemma {:induction false} LeftIsSorted(rows: seq<RunRow>, at: Time, ids: set<nat>)
    requires SortedRows(rows)
    ensures SortedRows(Left(rows, at, ids))
  {
    if rows != [] {
      var init, last := rows[..|rows| - 1], rows[|rows| - 1];
      LeftIsSorted(init, at, ids);
      var l := Left(init, at, ids);
      forall i | 0 <= i < |l| ensures l[i].startedAt <= last.startedAt {
        assert l[i] in init;
      }
    }
  }

  lemma {:induction false} StoredIsSorted(events: seq<Event>)
    requires Chronological(events)
    ensures SortedRows(Stored(events))
  {
    if events != [] {
      var n := |events| - 1;
      var init, s := events[..n], Stored(events[..n]);
      StoredIsSorted(init);
      match events[n]
      case Swept(at, ids) => LeftIsSorted(s, at, ids);
      case Ran(r) =>
        forall i | 0 <= i < |s| ensures s[i].startedAt <= r.startedAt {
          var j := StoredRan(init, s[i]);
          assert TimeOf(events[j]) <= TimeOf(events[n]);
        }
    }
  }

  lemma {:induction false} AllOldGone(rows: seq<RunRow>, at: Time, ids: set<nat>)
    requires forall r :: r in rows ==> Old(r, at) && r.id in ids
    ensures Left(rows, at, ids) == []
  {
    if rows != [] {
      assert rows[|rows| - 1] in rows && forall r :: r in rows[..|rows| - 1] ==> r in rows;
      AllOldGone(rows[..|rows| - 1], at, ids);
    }
  }

  /** A thorough deletion leaves the frontier of the rows, or no good row at all. */
  lemma {:induction false} LeftFrontier(rows: seq<RunRow>, at: Time, ids: set<nat>)
    requires SortedRows(rows) && forall r :: r in rows && Old(r, at) ==> r.id in ids
    ensures Frontier(Left(rows, at, ids)) == Frontier(rows) || Frontier(Left(rows, at, ids)).None?
  {
    if rows != [] {
      var init, last := rows[..|rows| - 1], rows[|rows| - 1];
      assert last in rows && forall r :: r in init ==> r in rows;
      if Old(last, at) {
        forall r | r in rows ensures Old(r, at) {
          var i :| 0 <= i < |rows| && rows[i] == r;
        }
        AllOldGone(rows, at, ids);
      } else {
        LeftFrontier(init, at, ids);
        NextFrontier(Left(init, at, ids), last);
      }
    }
  }

  lemma PrefixIsChained(events: seq<Event>, n: nat)
    requires n <= |events| && Chained(events) && Chronological(events) && Thorough(events)
    ensures Chained(events[..n]) && Chronological(events[..n]) && Thorough(events[..n])
  {
    forall i | 0 <= i < n && GoodAt(events[..n], i) ensures ChainedAt(events[..n], i) {
      assert events[..n][..i] == events[..i];
      assert GoodAt(events, i) && ChainedAt(events, i);
    }
    forall j, r | 0 <= j < n && events[..n][j].Swept? && r in Stored(events[..n][..j]) && Old(r, events[..n][j].at)
      ensures r.id in events[..n][j].ids
    {
      assert events[..n][..j] == events[..j];
    }
  }

  /** After a good run the stored frontier is at or after its start, or there is none. */
  lemma {:induction false} FrontierSince(events: seq<Event>, g: nat)
    requires Chained(events) && Chronological(events) && Thorough(events) && g < |events| && GoodAt(events, g)
    ensures Frontier(Stored(events)).Some? ==> events[g].run.startedAt <= Frontier(Stored(events)).value
  {
    var n := |events| - 1;
    var s := Stored(events[..n]);
    assert GoodAt(events, n) ==> ChainedAt(events, n);
    hide Left, LastGood, SortedRows, WindowFrom;
    if g < n {
      PrefixIsChained(events, n);
      assert GoodAt(events[..n], g);
      FrontierSince(events[..n], g);
      assert TimeOf(events[g]) <= TimeOf(events[n]);
    }
    match events[n]
    case Ran(r) => NextFrontier(s, r);
    case Swept(at, ids) =>
      PrefixIsChained(events, n);
      StoredIsSorted(events[..n]);
      LeftFrontier(s, at, ids);
  }

  /** The first instant of the hole a run leaves. */
  function HoleAt(events: seq<Event>, g: nat): Time
    requires g < |events| && LastGood(events[..g]).Some?
  {
    LastGood(events[..g]).value - OVERLAP + 1
  }

  /** A frontier row that is gone was older than rows are kept. */
  lemma GoneIsOld(events: seq<Event>, g: nat)
    requires Chained(events) && Chronological(events) && g < |events| && GoodAt(events, g)
    requires LastGood(events[..g]).Some? && Frontier(Stored(events[..g])).None?
    ensures LastGood(events[..g]).value < events[g].run.startedAt - RUNS_KEPT
  {
    var h := LastGoodIs(events[..g]);
    assert GoodAt(events, h) && ChainedAt(events, h);
    if events[h].run.startedAt >= events[g].run.startedAt - RUNS_KEPT {
      forall j | h < j < g && events[j].Swept? ensures !Old(events[h].run, events[j].at) {
        assert TimeOf(events[j]) <= TimeOf(events[g]);
      }
      Survives(events[..g], h);
      GoodRowGivesFrontier(Stored(events[..g]), events[h].run);
    }
  }

  /** No later window reaches back to the hole's first instant. */
  lemma FromAfter(events: seq<Event>, g: nat, i: nat)
    requires Chained(events) && Chronological(events) && Thorough(events)
    requires g < i < |events| && Outage(events, g) && GoodAt(events, i)
    ensures LeavesHole(events[i].run.windowFrom.value, LastGood(events[..g]).value)
  {
    var r, later, last := events[g].run, events[i].run, LastGood(events[..g]).value;
    assert ChainedAt(events, g) && ChainedAt(events, i) && TimeOf(events[g]) <= TimeOf(events[i]);
    HoleWhen(events, g);
    var rows := Stored(events[..i]);
    if later.nightly {
      if r.nightly {
        TruncatedKeepsOrder(r.startedAt - NIGHTLY_LOOKBACK, later.startedAt - NIGHTLY_LOOKBACK);
      } else {
        GoneIsOld(events, g);
        TruncatedIsBefore(later.windowFrom.value);
      }
    } else {
      PrefixIsChained(events, i);
      assert GoodAt(events[..i], g);
      FrontierSince(events[..i], g);
      TruncatedKeepsOrder(r.windowFrom.value, later.windowFrom.value) by {
        if Frontier(rows).None? {
          assert later.windowFrom.value == later.startedAt - FIRST_LOOKBACK;
        }
        assert r.windowFrom.value <= r.startedAt - FIRST_LOOKBACK;
      }
    }
  }

  /** A session that ends at the first instant of a hole, and is listed the overlap later, is never
      asked for while it is listed, by any good run before or after. */
  lemma OutageMisses(events: seq<Event>, g: nat, i: nat)
    requires Chained(events) && Chronological(events) && Thorough(events)
    requires g < |events| && Outage(events, g) && i < |events| && GoodAt(events, i)
    ensures HoleAt(events, g) + OVERLAP <= events[i].run.startedAt ==> !Asked(events[i].run, HoleAt(events, g))
  {
    if i < g {
      GoodBefore(events, g, i);
    } else if i > g {
      FromAfter(events, g, i);
    }
  }

  /** Yet the good runs pass it. */
  lemma {:induction false} HoleIsPassed(events: seq<Event>, g: nat)
    requires Chained(events) && Chronological(events) && g < |events| && Outage(events, g)
    ensures LastGood(events).Some? && HoleAt(events, g) + OVERLAP <= LastGood(events).value
  {
    assert ChainedAt(events, g);
    HoleWhen(events, g);
    GoodBefore(events, |events|, g);
    assert events[..|events|] == events;
    TruncatedIsBefore(events[g].run.windowFrom.value);
  }

  function GoodRow(id: nat, at: Time, nightly: bool, from: Time): RunRow {
    RunRow(id, at, nightly, Range, Some(from), Some(at), true, [], [])
  }

  /** An ordinary first run, and nothing until the nightly pass 31 days later: an outage. */
  lemma AMonthIsAnOutage()
    ensures var events := [Ran(GoodRow(0, 0, false, -FIRST_LOOKBACK)), Ran(GoodRow(1, 31 * DAY, true, DAY))];
      Chained(events) && Chronological(events) && Thorough(events) && Outage(events, 1)
  {
    var events := [Ran(GoodRow(0, 0, false, -FIRST_LOOKBACK)), Ran(GoodRow(1, 31 * DAY, true, DAY))];
    assert events[..0] == [] && events[..1] == [events[0]];
    assert ChainedAt(events, 0) && ChainedAt(events, 1);
  }

  /** A good run, nothing for 92 days, its row deleted on the 91st: the ordinary run that follows looks
      back two days only. */
  lemma AQuarterIsAnOutage()
    ensures var events := [Ran(GoodRow(0, 0, false, -FIRST_LOOKBACK)), Swept(91 * DAY, {0}),
                           Ran(GoodRow(1, 92 * DAY, false, 90 * DAY))];
      Chained(events) && Chronological(events) && Thorough(events) && Outage(events, 2)
  {
    var first, sweep := Ran(GoodRow(0, 0, false, -FIRST_LOOKBACK)), Swept(91 * DAY, {0});
    var events := [first, sweep, Ran(GoodRow(1, 92 * DAY, false, 90 * DAY))];
    assert events[..0] == [] && events[..1] == [first] && events[..2] == [first, sweep];
    assert [first, sweep][..1] == [first];
    assert Stored([first]) == [first.run];
    AllOldGone([first.run], 91 * DAY, {0});
    assert Stored(events[..2]) == [] && LastGood(events[..2]) == LastGood(events[..1]) == Some(0);
    assert ChainedAt(events, 0) && ChainedAt(events, 2);
  }
}
