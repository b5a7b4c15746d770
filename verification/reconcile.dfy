/** Pull reconciliation of one cabinet: a run reads its window page by page and applies it, and why no
    ended session is missed. */
module Reconciliation {
  import opened Quantities
  import opened Sessions
  import opened SessionRuns
  import opened RangeRoute
  import opened RunHistory

  // ----- the run itself -----

  function Pulls(cab: nat, entries: seq<Entry>, now: Time): seq<Op> {
    seq(|entries|, i requires 0 <= i < |entries| => Op.Deliver(cab, entries[i].payload, true, now))
  }

  lemma {:induction false} RunAppend(site: Site, rows: seq<Session>, a: seq<Op>, b: seq<Op>)
    ensures Run(site, rows, a + b) == Run(site, Run(site, rows, a), b)
    decreases |a|
  {
    if a == [] {
      assert a + b == b;
    } else {
      assert (a + b)[1..] == a[1..] + b;
      RunAppend(site, Step(site, rows, a[0]), a[1..], b);
    }
  }

  lemma PullsAppend(cab: nat, a: seq<Entry>, b: seq<Entry>, now: Time)
    ensures Pulls(cab, a + b, now) == Pulls(cab, a, now) + Pulls(cab, b, now)
  {}

  lemma {:induction false} PullOne(site: Site, rows: seq<Session>, cab: nat, a: seq<Entry>, e: Entry, now: Time)
    ensures Run(site, rows, Pulls(cab, a + [e], now))
         == Step(site, Run(site, rows, Pulls(cab, a, now)), Op.Deliver(cab, e.payload, true, now))
  {
    PullsAppend(cab, a, [e], now);
    RunAppend(site, rows, Pulls(cab, a, now), Pulls(cab, [e], now));
    assert Pulls(cab, [e], now)[1..] == [];
  }

  // ----- what becomes of an applied session -----

  /** The table would refuse the payload: another row of the cabinet has the session's id, or a number
      does not fit its column. */
  predicate RefusedAt(site: Site, rows: seq<Session>, cab: nat, p: Payload) {
    !Broken(p) && Verdict(site, rows, cab, Parse(p).value) == Refused
  }

  /** The rows when the run delivers the j-th of the sessions. */
  function RowsAt(site: Site, rows: seq<Session>, cab: nat, entries: seq<Entry>, j: nat, now: Time): seq<Session>
    requires j <= |entries|
  {
    Run(site, rows, Pulls(cab, entries[..j], now))
  }

  /** The table takes them all, one after the other. */
  ghost predicate Accepts(site: Site, rows: seq<Session>, cab: nat, entries: seq<Entry>, now: Time) {
    forall j :: 0 <= j < |entries| ==>
      !RefusedAt(site, RowsAt(site, rows, cab, entries, j, now), cab, entries[j].payload)
  }

  /** A pulled session that met these rows has left its mark on the rows there are now: the row it
      belongs to is reconciled, or was billed already; or it is broken, or none of the ERP's. */
  ghost predicate Settled(site: Site, met: seq<Session>, cab: nat, p: Payload, rows: seq<Session>) {
    |rows| == |met| &&
    (Broken(p) ||
     var v, k := Verdict(site, met, cab, Parse(p).value), Match(site, met, cab, Parse(p).value);
     match v
     case Unknown => true
     case AlreadyBilled => k.Some? && rows[k.value].billing == Billed
     case Applied => k.Some? && rows[k.value].reconciledAt.Some?
     case _ => false)
  }

  lemma {:induction false} DeliveredIsSettled(site: Site, met: seq<Session>, cab: nat, p: Payload, now: Time,
                                              more: seq<Op>)
    requires p.status == "ended" && !RefusedAt(site, met, cab, p)
    ensures Settled(site, met, cab, p, Run(site, Step(site, met, Op.Deliver(cab, p, true, now)), more))
  {
    var next := Step(site, met, Op.Deliver(cab, p, true, now));
    RunSafety(site, next, more);
    StepEvolves(site, met, Op.Deliver(cab, p, true, now));
    if !Broken(p) && Verdict(site, met, cab, Parse(p).value) == Applied {
      PullReconciles(site, met, cab, p, now);
    }
  }

  lemma {:induction false} AppliedIsSettled(site: Site, rows: seq<Session>, cab: nat, entries: seq<Entry>, j: nat,
                                            now: Time, more: seq<Op>)
    requires j < |entries| && entries[j].payload.status == "ended" && Accepts(site, rows, cab, entries, now)
    ensures Settled(site, RowsAt(site, rows, cab, entries, j, now), cab, entries[j].payload,
                    Run(site, rows, Pulls(cab, entries, now) + more))
  {
    hide Step, RefusedAt, Settled;
    var met := RowsAt(site, rows, cab, entries, j, now);
    var rest := Pulls(cab, entries[j + 1..], now) + more;
    assert entries == entries[..j] + [entries[j]] + entries[j + 1..];
    PullsAppend(cab, entries[..j] + [entries[j]], entries[j + 1..], now);
    assert Pulls(cab, entries, now) + more == Pulls(cab, entries[..j] + [entries[j]], now) + rest;
    RunAppend(site, rows, Pulls(cab, entries[..j] + [entries[j]], now), rest);
    PullOne(site, rows, cab, entries[..j], entries[j], now);
    DeliveredIsSettled(site, met, cab, entries[j].payload, now, rest);
  }

  // ----- coverage -----

  /** A session the cabinet lists from some moment on. */
  datatype Visible = Visible(payload: Payload, since: Time)

  /** A good run applied every session of its window that was listed when it started. */
  ghost predicate AppliedAll(r: RunRow, log: set<Visible>) {
    Good(r) ==> forall v :: v in log && EndedAt(v.payload).Some? && v.since <= r.startedAt
                            && Asked(r, EndedAt(v.payload).value) ==>
                       EntryOf(v.payload) in r.applied
  }

  /** The session rows are what the run left, or what any later deliveries, billings and
      acknowledgements made of them, and the table took all the run applied. */
  ghost predicate Leads(site: Site, cab: nat, r: RunRow, rows: seq<Session>) {
    && Accepts(site, r.before, cab, r.applied, r.startedAt)
    && exists more :: rows == Run(site, r.before, Pulls(cab, r.applied, r.startedAt) + more)
  }

  lemma {:induction false} LeadsOn(site: Site, cab: nat, r: RunRow, rows: seq<Session>, ops: seq<Op>)
    requires Leads(site, cab, r, rows)
    ensures Leads(site, cab, r, Run(site, rows, ops))
  {
    hide Step;
    var more :| rows == Run(site, r.before, Pulls(cab, r.applied, r.startedAt) + more);
    RunAppend(site, r.before, Pulls(cab, r.applied, r.startedAt) + more, ops);
    assert Pulls(cab, r.applied, r.startedAt) + more + ops == Pulls(cab, r.applied, r.startedAt) + (more + ops);
  }

  /** The run applied the session, and it is settled. */
  ghost predicate SettledBy(site: Site, cab: nat, r: RunRow, p: Payload, rows: seq<Session>) {
    exists j :: 0 <= j < |r.applied| && r.applied[j].payload == p
             && Settled(site, RowsAt(site, r.before, cab, r.applied, j, r.startedAt), cab, p, rows)
  }

  /** What each run so far applied, and what the session rows have kept of it. */
  ghost predicate Covers(site: Site, cab: nat, events: seq<Event>, log: set<Visible>, rows: seq<Session>) {
    forall i :: 0 <= i < |events| && events[i].Ran? ==>
      AppliedAll(events[i].run, log) && Leads(site, cab, events[i].run, rows)
  }

  /** The session ended since the first good window began, and was listed within the overlap of its
      end; the good runs are the overlap past that end. */
  ghost predicate Due(events: seq<Event>, v: Visible) {
    && EndedAt(v.payload).Some? && v.since <= EndedAt(v.payload).value + OVERLAP
    && LastGood(events).Some? && EndedAt(v.payload).value + OVERLAP <= LastGood(events).value
    && forall f :: 0 <= f < |events| && GoodAt(events, f) && LastGood(events[..f]).None? ==>
         events[f].run.windowFrom.value <= EndedAt(v.payload).value
  }

  /** Coverage. If no good run leaves a hole, every session that is due has been applied by a good run
      and is settled in the session rows, whatever failed and by-user runs, deletions of run rows,
      webhooks and billings lie between. */
  lemma EverySessionApplied(site: Site, cab: nat, events: seq<Event>, log: set<Visible>, v: Visible, rows: seq<Session>)
    requires Chained(events) && forall f :: 0 <= f < |events| ==> !Outage(events, f)
    requires Covers(site, cab, events, log, rows) && v in log && Due(events, v)
    ensures exists i :: 0 <= i < |events| && GoodAt(events, i) && SettledBy(site, cab, events[i].run, v.payload, rows)
  {
    hide Step, RefusedAt, Settled;
    var g := LastGoodIs(events);
    assert ChainedAt(events, g);
    var i := SomeRunAsks(events, EndedAt(v.payload).value, g);
    var r := events[i].run;
    assert AppliedAll(r, log) && Leads(site, cab, r, rows);
    var j :| 0 <= j < |r.applied| && r.applied[j] == EntryOf(v.payload);
    var more :| rows == Run(site, r.before, Pulls(cab, r.applied, r.startedAt) + more);
    AppliedIsSettled(site, r.before, cab, r.applied, j, r.startedAt, more);
    assert SettledBy(site, cab, r, v.payload, rows);
  }

  /** So it is whenever good runs are no further apart than 30 days less the overlap. */
  lemma CloseRunsCover(site: Site, cab: nat, events: seq<Event>, log: set<Visible>, v: Visible, rows: seq<Session>)
    requires Chained(events) && Chronological(events) && CloseRuns(events)
    requires Covers(site, cab, events, log, rows) && v in log && Due(events, v)
    ensures exists i :: 0 <= i < |events| && GoodAt(events, i) && SettledBy(site, cab, events[i].run, v.payload, rows)
  {
    forall f | 0 <= f < |events| ensures !Outage(events, f) {
      CloseRunsLeaveNoHole(events, f);
    }
    EverySessionApplied(site, cab, events, log, v, rows);
  }

  // ----- the run, step by step -----

  datatype Ending = Finished | RouteMissing | Stopped

  /** One session more. */
  method ApplyNext(table: SessionTable, site: Site, ghost start: seq<Session>, cab: nat, ghost done: seq<Entry>,
                   e: Entry, now: Time) returns (ok: bool)
    requires table.rows == Run(site, start, Pulls(cab, done, now))
    modifies table
    ensures ok <==> !RefusedAt(site, old(table.rows), cab, e.payload)
    ensures ok ==> table.rows == Run(site, start, Pulls(cab, done + [e], now))
  {
    PullOne(site, start, cab, done, e, now);
    var a := table.Deliver(site, cab, e.payload, true, now);
    ok := a != Answer.Refused;
  }

  /** One page, one transaction: all its sessions, or none exactly when the table refuses one. */
  method ApplyPage(table: SessionTable, site: Site, cab: nat, page: seq<Entry>, now: Time) returns (ok: bool)
    modifies table
    ensures ok <==> Accepts(site, old(table.rows), cab, page, now)
    ensures table.rows == if ok then Run(site, old(table.rows), Pulls(cab, page, now)) else old(table.rows)
  {
    hide Step, RefusedAt;
    var before := table.rows;
    ghost var done: seq<Entry> := [];
    NonePulled(site, before, cab, now);
    for i := 0 to |page|
      invariant done == page[..i] && table.rows == Run(site, before, Pulls(cab, done, now))
      invariant forall j :: 0 <= j < i ==>
        !RefusedAt(site, RowsAt(site, before, cab, page, j, now), cab, page[j].payload)
    {
      ok := ApplyNext(table, site, before, cab, done, page[i], now);
      TakeOne(page, i);
      done := done + [page[i]];
      if !ok {
        assert RefusedAt(site, RowsAt(site, before, cab, page, i, now), cab, page[i].payload);
        table.rows := before;
        return;
      }
    }
    assert done == page;
    ok := true;
  }

  lemma TakeOne<T>(s: seq<T>, i: nat)
    requires i < |s|
    ensures s[..i] + [s[i]] == s[..i + 1]
  {}

  lemma {:induction false} NonePulled(site: Site, rows: seq<Session>, cab: nat, now: Time)
    ensures Run(site, rows, Pulls(cab, [], now)) == rows
  {
    assert Pulls(cab, [], now) == [];
  }

  lemma NoneRefused(site: Site, rows: seq<Session>, cab: nat, now: Time)
    ensures Accepts(site, rows, cab, [], now)
  {}

  lemma {:induction false} RunBoth(site: Site, rows: seq<Session>, cab: nat, a: seq<Entry>, b: seq<Entry>, now: Time)
    ensures Run(site, rows, Pulls(cab, a + b, now))
         == Run(site, Run(site, rows, Pulls(cab, a, now)), Pulls(cab, b, now))
  {
    PullsAppend(cab, a, b, now);
    RunAppend(site, rows, Pulls(cab, a, now), Pulls(cab, b, now));
  }

  /** Accepting one list and then another is accepting both. */
  lemma {:induction false} AcceptsBoth(site: Site, rows: seq<Session>, cab: nat, a: seq<Entry>, b: seq<Entry>,
                                       now: Time)
    requires Accepts(site, rows, cab, a, now) && Accepts(site, Run(site, rows, Pulls(cab, a, now)), cab, b, now)
    ensures Accepts(site, rows, cab, a + b, now)
  {
    hide Step, Broken, Verdict;
    var all, mid := a + b, Run(site, rows, Pulls(cab, a, now));
    forall j | 0 <= j < |all| ensures !RefusedAt(site, RowsAt(site, rows, cab, all, j, now), cab, all[j].payload) {
      if j < |a| {
        assert all[..j] == a[..j];
        assert !RefusedAt(site, RowsAt(site, rows, cab, a, j, now), cab, a[j].payload);
      } else {
        assert all[..j] == a + b[..j - |a|];
        RunBoth(site, rows, cab, a, b[..j - |a|], now);
        assert !RefusedAt(site, RowsAt(site, mid, cab, b, j - |a|, now), cab, b[j - |a|].payload);
      }
    }
  }

  /** How the read ended, by the last of its reads: a missing route; a refusal, or a page the table
      does not take; or else the list's end. Every read before was a page. */
  ghost predicate EndsAs(ending: Ending, site: Site, cab: nat, c: Cabinet, last: nat, applied: seq<Entry>,
                         rows: seq<Session>, now: Time) {
    && (forall k :: 0 <= k < last ==> c.reply(k).Listed?)
    && match c.reply(last)
       case Missing => ending == RouteMissing
       case Failed => ending == Stopped
       case Listed(size, _) =>
         if ending == Finished then true
         else ending == Stopped && !Accepts(site, rows, cab, Page(c.window(last), |applied|, size), now)
  }

  /** The offset loop. It ends, and unless the cabinet refuses a read or the table a page, every
      session that was in the window at the first read has been applied, whatever was inserted
      meanwhile and whatever page size came back; the rows are as after applying, in order, what it
      reports. */
  method ReadWindow(table: SessionTable, site: Site, cab: nat, c: Cabinet, ghost most: nat, now: Time)
      returns (ending: Ending, applied: seq<Entry>, ghost last: nat)
    requires Grows(c, most)
    modifies table
    ensures ending == Finished ==> forall e :: e in c.window(0) ==> e in applied
    ensures EndsAs(ending, site, cab, c, last, applied, table.rows, now)
    ensures Accepts(site, old(table.rows), cab, applied, now)
    ensures table.rows == Run(site, old(table.rows), Pulls(cab, applied, now))
  {
    hide Step, RefusedAt, Accepts;
    var k, offset := 0, 0;
    applied, last := [], 0;
    NonePulled(site, table.rows, cab, now);
    NoneRefused(site, table.rows, cab, now);
    while true
      invariant last == k && offset == |applied| && forall i :: 0 <= i < k ==> c.reply(i).Listed?
      invariant table.rows == Run(site, old(table.rows), Pulls(cab, applied, now))
      invariant Accepts(site, old(table.rows), cab, applied, now)
      invariant offset <= most && DoneUpTo(c.window(0), c.window(k), offset, applied)
      decreases most - offset
    {
      if c.reply(k).Missing? {
        return RouteMissing, applied, last;
      }
      if c.reply(k).Failed? {
        return Stopped, applied, last;
      }
      var page := Page(c.window(k), offset, c.reply(k).size);
      PageRead(c, most, k, offset, page, applied);
      var ok := ApplyPage(table, site, cab, page, now);
      if !ok {
        return Stopped, applied, last;
      }
      RunBoth(site, old(table.rows), cab, applied, page, now);
      AcceptsBoth(site, old(table.rows), cab, applied, page, now);
      applied := applied + page;
      offset := offset + |page|;
      if page == [] || (c.reply(k).withTotal && |c.window(k)| <= offset) {
        return Finished, applied, last;
      }
      k := k + 1;
      last := k;
    }
  }

  /** What the rest of a run meets: the single-session answers for its open sessions, whether the
      acknowledgement was taken, and the by-user pages of a cabinet without the range route, up to
      the last customer or the first refusal. */
  datatype Rest = Rest(keyed: bool, refreshed: seq<Entry>, acknowledged: bool, byUser: seq<seq<Entry>>, byUserOk: bool)

  class Reconciler {
    /** The rows there are, with ids never given twice, and all that happened to them. */
    var runs: seq<RunRow>
    var nextId: nat
    ghost var events: seq<Event>
    const site: Site
    const cab: nat
    const table: SessionTable
    /** Every session the cabinet ever lists, and since when. */
    ghost const log: set<Visible>

    constructor (site: Site, cab: nat, table: SessionTable, ghost log: set<Visible>)
      ensures Valid() && runs == [] && this.site == site && this.cab == cab && this.table == table && this.log == log
    {
      this.site, this.cab, this.table, this.log := site, cab, table, log;
      runs, nextId, events := [], 0, [];
    }

    /** What coverage asks of the runs made so far. */
    ghost predicate Valid()
      reads this, table
    {
      && runs == Stored(events) && RowIds(runs, nextId)
      && Chained(events) && Covers(site, cab, events, log, table.rows)
    }

    /** A payload brought by a webhook, between runs. */
    method Webhook(p: Payload, now: Time) returns (a: Answer)
      requires Valid()
      modifies table
      ensures Valid() && table.rows == Step(site, old(table.rows), Op.Deliver(cab, p, false, now))
    {
      ghost var op := Op.Deliver(cab, p, false, now);
      RunOne(site, table.rows, op);
      CoversOn(site, cab, events, log, table.rows, [op]);
      a := table.Deliver(site, cab, p, false, now);
    }

    /** One more page, applied in one transaction after what was read so far. */
    method ApplyMore(ghost start: seq<Session>, ghost done: seq<Op>, page: seq<Entry>, now: Time)
        returns (ok: bool, ghost more: seq<Op>)
      requires table.rows == Run(site, start, done)
      modifies table
      ensures ok <==> Accepts(site, old(table.rows), cab, page, now)
      ensures more == if ok then Pulls(cab, page, now) else []
      ensures table.rows == Run(site, start, done + more)
    {
      ok := ApplyPage(table, site, cab, page, now);
      more := if ok then Pulls(cab, page, now) else [];
      RunAppend(site, start, done, more);
      assert Run(site, Run(site, start, done), []) == Run(site, start, done);
    }

    /** The by-user pages, a transaction each. */
    method ApplyByUser(ghost start: seq<Session>, ghost done: seq<Op>, pages: seq<seq<Entry>>, now: Time)
        returns (ok: bool, ghost more: seq<Op>)
      requires table.rows == Run(site, start, done)
      modifies table
      ensures table.rows == Run(site, start, done + more)
    {
      hide Step, Accepts;
      ok, more := true, [];
      assert done + [] == done;
      for i := 0 to |pages|
        invariant table.rows == Run(site, start, done + more)
      {
        ghost var next: seq<Op>;
        ok, next := ApplyMore(start, done + more, pages[i], now);
        assert done + more + next == done + (more + next);
        more := more + next;
        if !ok {
          return;
        }
      }
    }

    /** The cabinet's acknowledgement of what it was told: the billed rows are marked. */
    method Acknowledge(ghost start: seq<Session>, ghost done: seq<Op>, now: Time) returns (ghost more: seq<Op>)
      requires table.rows == Run(site, start, done)
      modifies table
      ensures more == [Op.Acknowledge(cab, now)] && table.rows == Run(site, start, done + more)
    {
      more := [Op.Acknowledge(cab, now)];
      RunAppend(site, start, done, more);
      RunOne(site, table.rows, Op.Acknowledge(cab, now));
      table.rows := Acknowledged(table.rows, cab, now);
    }

    /** The run proper, on its row: the window is read and applied, then the open sessions; without the
        range route, the customers' sessions instead. It is good exactly when the read came to its end
        and the table took the open sessions too. */
    method Pull(c: Cabinet, ghost most: nat, rest: Rest, row: RunRow, from: Time)
        returns (run: RunRow, ghost ending: Ending, ghost last: nat, ghost more: seq<Op>)
      requires Grows(c, most) && !row.ok && row.mode == Range && row.before == table.rows
      modifies table
      ensures run.id == row.id && run.startedAt == row.startedAt && run.nightly == row.nightly
      ensures run.before == row.before
      ensures EndsAs(ending, site, cab, c, last, run.applied,
                     Run(site, run.before, Pulls(cab, run.applied, run.startedAt)), run.startedAt)
      ensures Good(run) <==>
        (ending == Finished && Accepts(site, Run(site, run.before, Pulls(cab, run.applied, run.startedAt)), cab,
                                       rest.refreshed, run.startedAt))
      ensures Good(run) ==> more == Pulls(cab, rest.refreshed, run.startedAt)
                                    + if rest.acknowledged then [Op.Acknowledge(cab, run.startedAt)] else []
      ensures run.mode == ByUser <==> ending == RouteMissing
      ensures ending == Stopped ==> !run.ok && more == []
      ensures Good(run) ==> run.windowFrom == Some(from) && run.windowTo == Some(row.startedAt)
      ensures Good(run) ==> forall e :: e in c.window(0) ==> e in run.applied
      ensures Accepts(site, run.before, cab, run.applied, run.startedAt)
      ensures table.rows == Run(site, run.before, Pulls(cab, run.applied, run.startedAt) + more)
    {
      hide Step, Accepts;
      var now := row.startedAt;
      ghost var start := table.rows;
      var ended, applied;
      ended, applied, last := ReadWindow(table, site, cab, c, most, now);
      ending, more := ended, [];
      run := row.(windowFrom := Some(from), windowTo := Some(now), applied := applied);
      ghost var done := Pulls(cab, applied, now);
      assert done + [] == done;
      match ended {
        case Stopped =>
        case RouteMissing =>
          run := run.(mode := ByUser, windowFrom := None, windowTo := None);
          var ok;
          ok, more := ApplyByUser(start, done, rest.byUser, now);
          run := run.(ok := ok && rest.byUserOk);
        case Finished =>
          var ok;
          ok, more := ApplyMore(start, done, rest.refreshed, now);
          if ok {
            if rest.acknowledged {
              ghost var ack := Acknowledge(start, done + more, now);
              assert done + more + ack == done + (more + ack);
              more := more + ack;
            }
            run := run.(ok := true);
          }
      }
    }

    /** One run. It adds one row and keeps what coverage asks of the runs; a good one has the window
        that continues from the runs before and moves the frontier to its start. The session rows are
        those of applying what the run reports, and then of more deliveries and acknowledgements. */
    method Reconcile(server: Server, ghost most: nat, rest: Rest, now: Time, nightly: bool)
        returns (run: RunRow, ghost more: seq<Op>)
      requires Adds(server, most) && Valid() && Shows(server, log, now)
      modifies this`runs, this`nextId, this`events, table
      ensures runs == old(runs) + [run] && events == old(events) + [Ran(run)] && Valid()
      ensures run.startedAt == now && run.nightly == nightly && run.before == old(table.rows)
      ensures table.rows == Run(site, old(table.rows), Pulls(cab, run.applied, now) + more)
      ensures Good(run) ==> run.windowFrom == Some(WindowFrom(old(runs), now, nightly)) && run.windowTo == Some(now)
      ensures !rest.keyed ==> !Good(run) && table.rows == old(table.rows)
      ensures Frontier(runs) == if Good(run) then Some(now) else Frontier(old(runs))
    {
      hide Step, Accepts, Leads, Covers, AppliedAll;
      run, more := Attempt(server, most, rest, now, nightly);
      CoversNext(site, cab, events, Ran(run), log, table.rows);
      NextFrontier(runs, run);
      StaysChained(events, Ran(run));
      runs, nextId := runs + [run], nextId + 1;
      events := events + [Ran(run)];
    }

    /** The run before its row is stored. */
    method Attempt(server: Server, ghost most: nat, rest: Rest, now: Time, nightly: bool)
        returns (run: RunRow, ghost more: seq<Op>)
      requires Adds(server, most) && Valid() && Shows(server, log, now)
      modifies table
      ensures Covers(site, cab, events, log, table.rows)
      ensures AppliedAll(run, log) && Leads(site, cab, run, table.rows)
      ensures run.id == nextId && run.startedAt == now && run.nightly == nightly && run.before == old(table.rows)
      ensures table.rows == Run(site, old(table.rows), Pulls(cab, run.applied, now) + more)
      ensures Good(run) ==> run.windowFrom == Some(WindowFrom(runs, now, nightly)) && run.windowTo == Some(now)
      ensures !rest.keyed ==> !Good(run) && table.rows == old(table.rows)
    {
      hide Step, Broken, Verdict, Chained, Stored;
      run := RunRow(nextId, now, nightly, Range, None, None, false, table.rows, []);
      more := [];
      var from := WindowFrom(runs, now, nightly);
      ghost var start := table.rows;
      NonePulled(site, start, cab, now);
      assert Pulls(cab, [], now) + [] == Pulls(cab, [], now);
      AskingGrows(server, most, from, now);
      if rest.keyed {
        ghost var ending: Ending, last: nat;
        run, ending, last, more := Pull(Asking(server, from, now), most, rest, run, from);
      }
      ghost var ops := Pulls(cab, run.applied, now) + more;
      assert AddsAt(server, most, 0);
      AppliesShown(server, log, from, run);
      CoversOn(site, cab, events, log, start, ops);
      assert Leads(site, cab, run, table.rows);
    }

    /** Retention's deletion of old run rows, chunk by chunk, each a transaction: none of them is left,
        and every other row stays. */
    method DeleteOld(at: Time, chunk: nat) returns (total: nat)
      requires chunk > 0 && Valid()
      modifies this`runs, this`events
      ensures Valid()
      ensures forall r :: r in runs <==> r in old(runs) && at - 90 * 86_400_000_000 <= r.startedAt
      ensures total + |runs| == |old(runs)|
    {
      total := 0;
      while true
        invariant Valid() && table.rows == old(table.rows)
        invariant forall r :: r in runs ==> r in old(runs)
        invariant forall r :: r in old(runs) && !Old(r, at) ==> r in runs
        invariant total + |runs| == |old(runs)|
        decreases |runs|
      {
        var taken := DeleteChunk(at, chunk);
        if taken == 0 {
          return;
        }
        total := total + taken;
      }
    }

    method DeleteChunk(at: Time, chunk: nat) returns (taken: nat)
      requires chunk > 0 && Valid()
      modifies this`runs, this`events
      ensures Valid() && table.rows == old(table.rows)
      ensures exists ids :: runs == Left(old(runs), at, ids) && events == old(events) + [Swept(at, ids)]
      ensures taken + |runs| == |old(runs)| && taken <= chunk
      ensures taken == 0 ==> forall r :: r in runs ==> !Old(r, at)
    {
      hide Step, Accepts, Leads, Covers, AppliedAll;
      var found := OldRows(runs, at);
      taken := Min(chunk, |found|);
      var gone := set r | r in found[..taken] :: r.id;
      PickedAreOld(runs, nextId, at, taken, gone);
      LeftIds(runs, nextId, at, gone);
      StaysChained(events, Swept(at, gone));
      CoversNext(site, cab, events, Swept(at, gone), log, table.rows);
      runs := Left(runs, at, gone);
      events := events + [Swept(at, gone)];
      if taken == 0 {
        assert found == [];
      }
    }
  }

  /** The rows a deletion may take, in their order. */
  function OldRows(rows: seq<RunRow>, at: Time): (o: seq<RunRow>)
    ensures forall r :: r in o <==> r in rows && Old(r, at)
  {
    if rows == [] then []
    else
      var init, r := rows[..|rows| - 1], rows[|rows| - 1];
      assert forall x :: x in rows <==> x in init || x == r;
      if Old(r, at) then OldRows(init, at) + [r] else OldRows(init, at)
  }

  ghost predicate RowIds(rows: seq<RunRow>, nextId: nat) {
    && (forall i, j :: 0 <= i < j < |rows| ==> rows[i].id < rows[j].id)
    && (forall i :: 0 <= i < |rows| ==> rows[i].id < nextId)
  }

  lemma {:induction false} LeftIds(rows: seq<RunRow>, nextId: nat, at: Time, ids: set<nat>)
    requires RowIds(rows, nextId)
    ensures RowIds(Left(rows, at, ids), nextId)
  {
    if rows != [] {
      var init, last := rows[..|rows| - 1], rows[|rows| - 1];
      LeftIds(init, nextId, at, ids);
      var l := Left(init, at, ids);
      forall i | 0 <= i < |l| ensures l[i].id < last.id {
        assert l[i] in init;
      }
    }
  }

  /** With ids distinct, the ids of the first n old rows take just those rows. */
  lemma {:induction false} PickedAreOld(rows: seq<RunRow>, nextId: nat, at: Time, n: nat, ids: set<nat>)
    requires RowIds(rows, nextId) && n <= |OldRows(rows, at)|
    requires ids == set r | r in OldRows(rows, at)[..n] :: r.id
    ensures n + |Left(rows, at, ids)| == |rows|
  {
    if rows != [] {
      var init, last := rows[..|rows| - 1], rows[|rows| - 1];
      var o := OldRows(init, at);
      if n <= |o| {
        assert OldRows(rows, at)[..n] == o[..n];
        PickedAreOld(init, nextId, at, n, ids);
        NotAmong(o[..n], init, last.id, ids);
      } else {
        var before := set r | r in o[..|o|] :: r.id;
        assert o[..|o|] == o && OldRows(rows, at)[..n] == o + [last];
        PickedAreOld(init, nextId, at, |o|, before);
        OneMoreId(o, last, before, ids);
        SameLeft(init, at, before, last.id);
      }
    }
  }

  lemma NotAmong(picked: seq<RunRow>, rows: seq<RunRow>, id: nat, ids: set<nat>)
    requires ids == (set r | r in picked :: r.id) && (forall r :: r in picked ==> r in rows)
    requires forall r :: r in rows ==> r.id != id
    ensures id !in ids
  {}

  lemma OneMoreId(picked: seq<RunRow>, last: RunRow, before: set<nat>, ids: set<nat>)
    requires before == set r | r in picked :: r.id
    requires ids == set r | r in picked + [last] :: r.id
    ensures ids == before + {last.id}
  {
    assert last in picked + [last];
    forall id | id in before ensures id in ids {
      var r :| r in picked && r.id == id;
      assert r in picked + [last];
    }
  }

  lemma {:induction false} SameLeft(rows: seq<RunRow>, at: Time, ids: set<nat>, id: nat)
    requires forall r :: r in rows ==> r.id != id
    ensures Left(rows, at, ids + {id}) == Left(rows, at, ids)
  {
    if rows != [] {
      var init := rows[..|rows| - 1];
      assert rows[|rows| - 1] in rows && forall r :: r in init ==> r in rows;
      SameLeft(init, at, ids, id);
    }
  }

  /** The cabinet holds, at the run's first read, every session it lists by then. */
  ghost predicate Shows(server: Server, log: set<Visible>, now: Time) {
    forall v :: v in log && v.since <= now ==> v.payload in server.sessions(0)
  }

  lemma AppliesShown(server: Server, log: set<Visible>, from: Time, run: RunRow)
    requires Shows(server, log, run.startedAt) && DistinctIds(server.sessions(0))
    requires Good(run) ==> run.windowFrom == Some(from) && run.windowTo == Some(run.startedAt)
    requires Good(run) ==> forall e :: e in Asking(server, from, run.startedAt).window(0) ==> e in run.applied
    ensures AppliedAll(run, log)
  {
    ListingIs(server.sessions(0), Truncated(from), Truncated(run.startedAt));
  }

  lemma CoversNext(site: Site, cab: nat, events: seq<Event>, e: Event, log: set<Visible>, rows: seq<Session>)
    requires Covers(site, cab, events, log, rows)
    requires e.Ran? ==> AppliedAll(e.run, log) && Leads(site, cab, e.run, rows)
    ensures Covers(site, cab, events + [e], log, rows)
  {
    hide Step, Accepts, AppliedAll, Leads;
  }

  lemma {:induction false} CoversOn(site: Site, cab: nat, events: seq<Event>, log: set<Visible>, rows: seq<Session>,
                                    ops: seq<Op>)
    requires Covers(site, cab, events, log, rows)
    ensures Covers(site, cab, events, log, Run(site, rows, ops))
  {
    hide Step, Accepts;
    forall i | 0 <= i < |events| && events[i].Ran? ensures Leads(site, cab, events[i].run, Run(site, rows, ops)) {
      LeadsOn(site, cab, events[i].run, rows, ops);
    }
  }

  lemma {:induction false} RunOne(site: Site, rows: seq<Session>, op: Op)
    ensures Run(site, rows, [op]) == Step(site, rows, op)
  {
    assert [op][1..] == [];
  }

  lemma {:induction false} StaysChained(events: seq<Event>, e: Event)
    requires Chained(events)
    requires e.Ran? && Good(e.run) ==>
      && e.run.windowFrom == Some(WindowFrom(Stored(events), e.run.startedAt, e.run.nightly))
      && e.run.windowTo == Some(e.run.startedAt)
    ensures Chained(events + [e])
    ensures Stored(events + [e]) == After(Stored(events), e)
  {
    var all := events + [e];
    assert all[..|events|] == events;
    forall i | 0 <= i < |all| && GoodAt(all, i) ensures ChainedAt(all, i) {
      if i < |events| {
        assert all[..i] == events[..i];
        assert GoodAt(events, i) && ChainedAt(events, i);
      }
    }
  }
}
