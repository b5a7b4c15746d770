/** The tables themselves, updated in place: one reading, the chunked roll-up, the deletion of
    simulated history, and one retention run. Each method is tied to the function that says what
    it does to the whole store. */
module MeterTables {
  import opened Quantities
  import opened Metering
  import opened Retention

  // ----- chunks compose -----

  lemma {:induction false} AllKept(rows: seq<Interval>, p: Interval -> bool)
    requires forall r :: r in rows ==> p(r)
    ensures Keep(rows, p) == rows
  {
    if rows != [] {
      var init, r := rows[..|rows| - 1], rows[|rows| - 1];
      assert rows == init + [r] && r in rows;
      forall x | x in init ensures p(x) {
        assert x in rows;
      }
      AllKept(init, p);
    }
  }

  /** With distinct ids, choosing by the ids of a prefix chooses that prefix. */
  lemma {:induction false} PrefixByIds(rows: seq<Interval>, n: nat, ids: set<nat>)
    requires n <= |rows| && forall i, j :: 0 <= i < j < |rows| ==> rows[i].id != rows[j].id
    requires ids == set r | r in rows[..n] :: r.id
    ensures Keep(rows, WithIds(ids)) == rows[..n]
  {
    if n == |rows| {
      assert rows[..n] == rows;
      AllKept(rows, WithIds(ids));
    } else {
      var init := rows[..|rows| - 1];
      assert init[..n] == rows[..n];
      PrefixByIds(init, n, ids);
    }
  }

  function FirstIds(rows: seq<Interval>, n: nat): set<nat>
    requires n <= |rows|
  {
    set r | r in rows[..n] :: r.id
  }

  /** With ids distinct, a chunk is given by its ids: the rows with the ids of the first n rows that
      meet a test are those n rows. */
  lemma ChunkByIds(s: Store, p: Interval -> bool, q: Interval -> bool, n: nat, ids: set<nat>)
    requires IdsGrow(s) && n <= |Keep(s.rows, p)| && ids == FirstIds(Keep(s.rows, p), n)
    requires forall r :: r in s.rows ==> (q(r) <==> p(r) && r.id in ids)
    ensures Keep(s.rows, q) == Keep(s.rows, p)[..n]
    ensures Drop(s.rows, q) == Drop(s.rows, WithIds(ids)) && IdsWhere(s.rows, q) == ids
  {
    var e := Keep(s.rows, p);
    forall i, j | 0 <= i < j < |e| ensures e[i].id != e[j].id {
      var i', j' := KeepOrder(s.rows, p, i, j);
    }
    PrefixByIds(e, n, ids);
    KeepTwice(s.rows, p, WithIds(ids), q);
    forall r | r in s.rows ensures q(r) <==> r.id in ids {
      IdIsChosen(s, p, n, ids, r);
    }
    KeepSame(s.rows, Not(q), Not(WithIds(ids)));
    forall id | id in ids ensures id in IdsWhere(s.rows, q) {
      var r :| r in e[..n] && r.id == id;
      assert r in s.rows;
    }
  }

  lemma IdIsChosen(s: Store, p: Interval -> bool, n: nat, ids: set<nat>, r: Interval)
    requires IdsGrow(s) && n <= |Keep(s.rows, p)| && ids == FirstIds(Keep(s.rows, p), n) && r in s.rows
    ensures r.id in ids ==> p(r)
  {
    if r.id in ids {
      var r' :| r' in Keep(s.rows, p)[..n] && r'.id == r.id;
      assert r' in s.rows && p(r');
      assert r' == r;
    }
  }

  lemma {:induction false} CountPart(rows: seq<Interval>, p: Interval -> bool)
    ensures |Keep(rows, p)| + |Drop(rows, p)| == |rows|
  {
    if rows != [] {
      CountPart(rows[..|rows| - 1], p);
    }
  }

  /** Two roll-ups, one after the other, are one roll-up of both selections: the monthly rows
      do not depend on how the expired rows were cut into chunks, and an unknown figure stays
      unknown. */
  lemma RollUpsCompose(s: Store, month: Time -> int, p: Interval -> bool, q: Interval -> bool, either: Interval -> bool)
    requires forall r :: r in s.rows ==> (either(r) <==> p(r) || q(r))
    ensures RollUp(RollUp(s, month, p), month, q) == RollUp(s, month, either)
  {
    var first, rest := Keep(s.rows, p), Keep(Drop(s.rows, p), q);
    var both := Keep(s.rows, either);
    var q' := (r: Interval) => !p(r) && q(r);
    KeepTwice(s.rows, either, p, p);
    KeepTwice(s.rows, Not(p), q, q');
    KeepTwice(s.rows, either, Not(p), q');
    assert Keep(both, p) == first && Drop(both, p) == rest;
    KeepTwice(s.rows, Not(p), Not(q), Not(either));
    MergesCompose(s.monthly, month, first, rest, both, p);
  }

  lemma {:induction false} MergesCompose(m: map<MonthKey, Totals>, month: Time -> int, first: seq<Interval>,
                                         rest: seq<Interval>, both: seq<Interval>, p: Interval -> bool)
    requires first == Keep(both, p) && rest == Drop(both, p)
    ensures Merged(Merged(m, month, first), month, rest) == Merged(m, month, both)
  {
    var left, right := Merged(Merged(m, month, first), month, rest), Merged(m, month, both);
    KeysSplit(both, p, month);
    forall k ensures At(left, k) == At(right, k) {
      MergesAgreeAt(m, month, both, p, k);
    }
    SameTotals(left, right);
  }

  lemma {:induction false} KeysSplit(rows: seq<Interval>, p: Interval -> bool, month: Time -> int)
    ensures KeysOf(Keep(rows, p), month) + KeysOf(Drop(rows, p), month) == KeysOf(rows, month)
  {
    forall r | r in rows ensures r in Keep(rows, p) || r in Drop(rows, p) {
      assert p(r) || Not(p)(r);
    }
  }

  lemma {:induction false} MergesAgreeAt(m: map<MonthKey, Totals>, month: Time -> int, both: seq<Interval>,
                                         p: Interval -> bool, k: MonthKey)
    ensures At(Merged(Merged(m, month, Keep(both, p)), month, Drop(both, p)), k) == At(Merged(m, month, both), k)
  {
    var first, rest := Keep(both, p), Drop(both, p);
    MergedAt(Merged(m, month, first), month, rest, k);
    MergedAt(m, month, first, k);
    MergedAt(m, month, both, k);
    TotalsPart(both, p, month, k);
    PlusLaws(At(m, k), Total(first, month, k), Total(rest, month, k));
  }

  lemma SameTotals(x: map<MonthKey, Totals>, y: map<MonthKey, Totals>)
    requires x.Keys == y.Keys && forall k :: k in x ==> At(x, k) == At(y, k)
    ensures x == y
  {
    forall k | k in x ensures x[k] == y[k] {
      assert At(x, k) == At(y, k);
    }
  }

  lemma MergedAppendAt(m: map<MonthKey, Totals>, month: Time -> int, rows: seq<Interval>, r: Interval, k: MonthKey)
    ensures At(Merged(m, month, rows + [r]), k)
         == if k == KeyOf(month, r) then Plus(At(Merged(m, month, rows), k), TotalsOf(r))
            else At(Merged(m, month, rows), k)
  {
    var before, t := At(m, k), Total(rows, month, k);
    MergedAt(m, month, rows + [r], k);
    MergedAt(m, month, rows, k);
    TotalAppend(rows, r, month, k);
    PlusLaws(before, t, TotalsOf(r));
  }

  lemma MergedAppend(m: map<MonthKey, Totals>, month: Time -> int, rows: seq<Interval>, r: Interval)
    ensures var n, k := Merged(m, month, rows), KeyOf(month, r);
      Merged(m, month, rows + [r]) == n[k := Plus(At(n, k), TotalsOf(r))]
  {
    var n, key := Merged(m, month, rows), KeyOf(month, r);
    var left, right := Merged(m, month, rows + [r]), n[key := Plus(At(n, key), TotalsOf(r))];
    assert KeysOf(rows + [r], month) == KeysOf(rows, month) + {key};
    assert left.Keys == right.Keys;
    forall k | k in left ensures At(left, k) == At(right, k) {
      MergedAppendAt(m, month, rows, r, k);
    }
    SameTotals(left, right);
  }

  /** Adding what is known: a missing figure leaves the other as it is, and two stay missing. */
  method Add(m: Totals, t: Totals) returns (sum: Totals)
    ensures sum == Plus(m, t)
  {
    var e, w := m.energy, m.water;
    if t.energy.Some? {
      e := Some((if e.Some? then e.value else 0) + t.energy.value);
    }
    if t.water.Some? {
      w := Some((if w.Some? then w.value else 0) + t.water.value);
    }
    sum := Totals(e, w, m.count + t.count);
  }

  /** The loop over the fetched rows: per key, energy and water added where known. */
  method Aggregate(month: Time -> int, rows: seq<Interval>) returns (agg: map<MonthKey, Totals>)
    ensures agg == Merged(map[], month, rows)
  {
    agg := map[];
    for i := 0 to |rows|
      invariant agg == Merged(map[], month, rows[..i])
    {
      var k := KeyOf(month, rows[i]);
      var t := Add(At(agg, k), TotalsOf(rows[i]));
      MergedAppend(map[], month, rows[..i], rows[i]);
      assert rows[..i] + [rows[i]] == rows[..i + 1];
      agg := agg[k := t];
    }
    assert rows[..|rows|] == rows;
  }

  /** The monthly rows once the given keys of an aggregate are in. */
  function Patched(m: map<MonthKey, Totals>, agg: map<MonthKey, Totals>, keys: set<MonthKey>): map<MonthKey, Totals> {
    map k | k in m.Keys + keys :: if k in keys then Plus(At(m, k), At(agg, k)) else At(m, k)
  }

  lemma PatchOne(m: map<MonthKey, Totals>, agg: map<MonthKey, Totals>, keys: set<MonthKey>, k: MonthKey)
    requires k !in keys
    ensures At(Patched(m, agg, keys), k) == At(m, k)
    ensures Patched(m, agg, keys + {k}) == Patched(m, agg, keys)[k := Plus(At(m, k), At(agg, k))]
  {}

  class MeterDb {
    var rows: seq<Interval>
    var nextId: nat
    var meters: map<nat, MeterState>
    var monthly: map<MonthKey, Totals>

    function Contents(): Store
      reads this
    {
      Store(rows, nextId, meters, monthly)
    }

    constructor ()
      ensures Contents() == EMPTY
    {
      rows, nextId, meters, monthly := [], 0, map[], map[];
    }

    /** One register reading: at most one new row. */
    method RecordReading(r: Reading) returns (v: Verdict)
      modifies this
      ensures v == Judge(old(Contents()), r)
      ensures Contents() == Record(old(Contents()), r)
    {
      if r.outlet !in meters {
        meters := meters[r.outlet := MeterState(Some(r.register), r.at, None)];
        return Seeded;
      }
      var st := meters[r.outlet];
      if r.at <= st.readAt {
        return NotNewer;
      }
      if st.register.None? || r.register < st.register.value {
        meters := meters[r.outlet := MeterState(Some(r.register), r.at, None)];
        return Reset;
      }
      var delta := r.register - st.register.value;
      var standalone := r.smartMode == Some(false);
      var session: Option<nat> := None;
      if r.smartMode == Some(true) {
        session := r.active;
      }
      var prev: Option<nat> := None;
      if st.lastId.Some? {
        prev := Find(rows, st.lastId.value);
      }
      if delta == 0 && prev.Some? && rows[prev.value].energy == Some(0)
         && rows[prev.value].who == Attribution(session, standalone) && rows[prev.value].toAt == st.readAt {
        rows := rows[prev.value := rows[prev.value].(toAt := r.at, meterTo := r.register)];
        v := Extended;
      } else {
        rows := rows + [Interval(nextId, r.outlet, Attribution(session, standalone), st.readAt, r.at,
                                 Some(delta), None, st.register.value, r.register)];
        st := st.(lastId := Some(nextId));
        nextId := nextId + 1;
        v := Added;
      }
      meters := meters[r.outlet := st.(register := Some(r.register), readAt := r.at)];
    }

    /** The loop over the aggregated keys: a missing monthly row is created empty first. */
    method MergeMonthly(agg: map<MonthKey, Totals>)
      modifies this`monthly
      ensures monthly == Patched(old(monthly), agg, agg.Keys)
    {
      var todo := agg.Keys;
      ghost var before, done: set<MonthKey> := monthly, {};
      while todo != {}
        invariant done !! todo && done + todo == agg.Keys
        invariant monthly == Patched(before, agg, done)
        decreases |todo|
      {
        var k :| k in todo;
        PatchOne(before, agg, done, k);
        var t := Add(At(monthly, k), At(agg, k));
        monthly := monthly[k := t];
        todo, done := todo - {k}, done + {k};
      }
    }

    /** One chunk, one transaction: the first expired rows by id, at most `chunk` of them, go into the
        monthly rows and out of the live ones. */
    method RollUpChunk(month: Time -> int, cutoff: Time, chunk: nat) returns (taken: nat, ghost ids: set<nat>)
      requires chunk > 0 && IdsGrow(Contents())
      modifies this`rows, this`monthly
      ensures Contents() == RollUp(old(Contents()), month, Rolled(Roll(cutoff, ids)))
      ensures var expired := Keep(old(rows), Aged(cutoff));
        && taken == Min(chunk, |expired|)
        && ids == FirstIds(expired, taken)
        && Keep(old(rows), Rolled(Roll(cutoff, ids))) == expired[..taken]
      ensures taken == 0 ==> forall r :: r in rows ==> !Expired(cutoff, r)
    {
      var expired := Keep(rows, Aged(cutoff));
      var picked := expired[..Min(chunk, |expired|)];
      var gone := FirstIds(expired, |picked|);
      ids := gone;
      ChunkByIds(Contents(), Aged(cutoff), Rolled(Roll(cutoff, ids)), |picked|, ids);
      taken := |picked|;
      var agg := Aggregate(month, picked);
      MergeMonthly(agg);
      MergedBoth(old(monthly), month, picked, agg);
      rows := Drop(rows, WithIds(gone));
      if taken == 0 {
        assert expired == [];
      }
    }

    /** All that expired, chunk by chunk: the result is the one-shot roll-up, whatever the
        chunk size, so a crash between two chunks only leaves work for the next run. */
    method RollUpIntervals(month: Time -> int, cutoff: Time, chunk: nat) returns (total: nat)
      requires chunk > 0 && IdsGrow(Contents())
      modifies this`rows, this`monthly
      ensures Contents() == RollUp(old(Contents()), month, Aged(cutoff))
      ensures total == |Keep(old(rows), Aged(cutoff))|
    {
      total := 0;
      ghost var start, done: set<nat> := Contents(), {};
      NothingRolled(start, month, cutoff);
      while true
        invariant Contents() == RollUp(start, month, Rolled(Roll(cutoff, done)))
        invariant total + |rows| == |start.rows|
        decreases |rows|
      {
        DropGrows(start, Rolled(Roll(cutoff, done)), Contents());
        ghost var before := Contents();
        ghost var ids: set<nat>;
        var taken: nat;
        taken, ids := RollUpChunk(month, cutoff, chunk);
        CountPart(before.rows, Rolled(Roll(cutoff, ids)));
        RollUpsCompose(start, month, Rolled(Roll(cutoff, done)), Rolled(Roll(cutoff, ids)),
                       Rolled(Roll(cutoff, done + ids)));
        done := done + ids;
        total := total + taken;
        if taken == 0 {
          break;
        }
      }
      FinallyAll(start, month, cutoff, done);
      CountPart(start.rows, Aged(cutoff));
    }

    /** One chunk of simulated history, one transaction: pointers at the rows are cleared first. At
        most `chunk` of the rows to go are taken. */
    method DeleteChunk(simulated: set<nat>, cutoff: Time, chunk: nat) returns (taken: nat, ghost ids: set<nat>)
      requires chunk > 0 && IdsGrow(Contents())
      modifies this`rows, this`meters
      ensures Contents() == Delete(old(Contents()), Purged(Purge(cutoff, ids), simulated))
      ensures var found := Keep(old(rows), Simulated(cutoff, simulated));
        && taken == Min(chunk, |found|)
        && Keep(old(rows), Purged(Purge(cutoff, ids), simulated)) == found[..taken]
    {
      var found := Keep(rows, Simulated(cutoff, simulated));
      taken := Min(chunk, |found|);
      var gone := FirstIds(found, taken);
      ids := gone;
      ChunkByIds(Contents(), Simulated(cutoff, simulated), Purged(Purge(cutoff, ids), simulated), taken, ids);
      meters := Cleared(meters, gone);
      rows := Drop(rows, WithIds(gone));
    }

    /** Simulated history is deleted, chunk by chunk, and no meter is left pointing at it. */
    method DeleteSimulated(simulated: set<nat>, cutoff: Time, chunk: nat) returns (total: nat)
      requires chunk > 0 && IdsGrow(Contents())
      modifies this`rows, this`meters
      ensures Contents() == Delete(old(Contents()), Simulated(cutoff, simulated)) && IdsGrow(Contents())
      ensures total == |Keep(old(rows), Simulated(cutoff, simulated))|
    {
      total := 0;
      ghost var p := Simulated(cutoff, simulated);
      while true
        invariant IdsGrow(Contents()) && Delete(Contents(), p) == Delete(old(Contents()), p)
        invariant total + |Keep(rows, p)| == |Keep(old(rows), p)|
        decreases |rows|
      {
        ghost var before := Contents();
        ghost var ids: set<nat>;
        var taken: nat;
        taken, ids := DeleteChunk(simulated, cutoff, chunk);
        ghost var q := Purged(Purge(cutoff, ids), simulated);
        DeletesCompose(before, q, p);
        CountChosen(before.rows, p, q);
        CountPart(before.rows, q);
        DropGrows(before, q, Contents());
        if taken == 0 {
          NothingDeleted(before, q);
          NothingDeleted(Contents(), p);
          break;
        }
        total := total + taken;
      }
    }

    /** One retention pass over the intervals, as the daily run makes it. */
    method RunRetention(month: Time -> int, simulated: set<nat>, simulatedCutoff: Time, cutoff: Time, chunk: nat)
      requires chunk > 0 && IdsGrow(Contents())
      modifies this`rows, this`meters, this`monthly
      ensures Contents() == RetentionRun(old(Contents()), month, simulated, simulatedCutoff, cutoff)
    {
      var deleted := DeleteSimulated(simulated, simulatedCutoff, chunk);
      var rolled := RollUpIntervals(month, cutoff, chunk);
    }
  }

  lemma NothingDeleted(s: Store, p: Interval -> bool)
    requires Keep(s.rows, p) == []
    ensures Delete(s, p) == s
  {
    forall r | r in s.rows ensures !p(r) {
      assert p(r) ==> r in Keep(s.rows, p);
    }
    AllKept(s.rows, Not(p));
  }

  /** Deleting part of a selection first changes nothing in the end. */
  lemma DeletesCompose(s: Store, q: Interval -> bool, p: Interval -> bool)
    requires forall r :: r in s.rows && q(r) ==> p(r)
    ensures Delete(Delete(s, q), p) == Delete(s, p)
  {
    KeepTwice(s.rows, Not(q), Not(p), Not(p));
    var first, rest, all := IdsWhere(s.rows, q), IdsWhere(Drop(s.rows, q), p), IdsWhere(s.rows, p);
    forall r | r in s.rows && p(r) ensures r.id in first + rest {
      assert q(r) || r in Drop(s.rows, q);
    }
    assert first + rest == all;
    ClearsCompose(s.meters, first, rest);
  }

  lemma ClearsCompose(meters: map<nat, MeterState>, a: set<nat>, b: set<nat>)
    ensures Cleared(Cleared(meters, a), b) == Cleared(meters, a + b)
  {
  }

  lemma {:induction false} CountChosen(rows: seq<Interval>, p: Interval -> bool, q: Interval -> bool)
    requires forall r :: r in rows && q(r) ==> p(r)
    ensures |Keep(rows, p)| == |Keep(rows, q)| + |Keep(Drop(rows, q), p)|
  {
    var rest := (r: Interval) => p(r) && !q(r);
    CountPart(Keep(rows, p), q);
    KeepTwice(rows, p, q, q);
    KeepTwice(rows, p, Not(q), rest);
    KeepTwice(rows, Not(q), p, rest);
  }

  lemma MergedBoth(m: map<MonthKey, Totals>, month: Time -> int, rows: seq<Interval>, agg: map<MonthKey, Totals>)
    requires agg == Merged(map[], month, rows)
    ensures Patched(m, agg, agg.Keys) == Merged(m, month, rows)
  {
    forall k ensures At(agg, k) == Total(rows, month, k) {
      MergedAt(map[], month, rows, k);
      PlusLaws(Total(rows, month, k), NOTHING, NOTHING);
    }
  }

  lemma NothingRolled(s: Store, month: Time -> int, cutoff: Time)
    ensures RollUp(s, month, Rolled(Roll(cutoff, {}))) == s
  {
    var none := Rolled(Roll(cutoff, {}));
    AllKept(s.rows, Not(none));
    CountPart(s.rows, none);
    forall k | k in s.monthly ensures Plus(s.monthly[k], NOTHING) == s.monthly[k] {
      PlusLaws(s.monthly[k], NOTHING, NOTHING);
    }
  }

  lemma DropGrows(s: Store, p: Interval -> bool, t: Store)
    requires IdsGrow(s) && t.rows == Drop(s.rows, p) && t.nextId == s.nextId
    ensures IdsGrow(t)
  {
    forall i, j | 0 <= i < j < |t.rows| ensures t.rows[i].id < t.rows[j].id {
      var i', j' := KeepOrder(s.rows, Not(p), i, j);
    }
    forall i | 0 <= i < |t.rows| ensures t.rows[i].id < t.nextId {
      assert t.rows[i] in t.rows;
    }
  }

  lemma FinallyAll(s: Store, month: Time -> int, cutoff: Time, done: set<nat>)
    requires forall r :: r in Drop(s.rows, Rolled(Roll(cutoff, done))) ==> !Expired(cutoff, r)
    ensures RollUp(s, month, Rolled(Roll(cutoff, done))) == RollUp(s, month, Aged(cutoff))
  {
    var some, all := Rolled(Roll(cutoff, done)), Aged(cutoff);
    forall r | r in s.rows ensures some(r) <==> all(r) {
      assert !some(r) ==> r in Drop(s.rows, some);
    }
    KeepSame(s.rows, some, all);
    KeepSame(s.rows, Not(some), Not(all));
  }
}
