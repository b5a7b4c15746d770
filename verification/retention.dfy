/** Folding old intervals into monthly rows, deleting simulated history, and what every run of
    readings, roll-ups and deletions keeps. */
module Retention {
  import opened Quantities
  import opened Metering
  import opened Figures

  // ----- monthly totals: an unknown figure is not a zero -----

  const NOTHING := Totals(None, None, 0)

  function Known(x: Option<int>): int { if x.Some? then x.value else 0 }

  function PlusKnown(x: Option<int>, y: Option<int>): (z: Option<int>)
    ensures z.None? <==> x.None? && y.None?
    ensures Known(z) == Known(x) + Known(y)
  {
    if y.None? then x else Some(Known(x) + y.value)
  }

  function Plus(a: Totals, b: Totals): Totals {
    Totals(PlusKnown(a.energy, b.energy), PlusKnown(a.water, b.water), a.count + b.count)
  }

  lemma PlusLaws(a: Totals, b: Totals, c: Totals)
    ensures Plus(a, b) == Plus(b, a)
    ensures Plus(Plus(a, b), c) == Plus(a, Plus(b, c))
    ensures Plus(a, NOTHING) == a
  {}

  function KeyOf(month: Time -> int, r: Interval): MonthKey {
    MonthKey(r.outlet, month(r.fromAt), r.who.standalone)
  }

  function TotalsOf(r: Interval): Totals {
    Totals(r.energy, r.water, 1)
  }

  /** What the rows hold for one outlet, month and flag. */
  function Total(rows: seq<Interval>, month: Time -> int, k: MonthKey): Totals {
    if rows == [] then NOTHING
    else
      var t := Total(rows[..|rows| - 1], month, k);
      var r := rows[|rows| - 1];
      if KeyOf(month, r) == k then Plus(t, TotalsOf(r)) else t
  }

  function At(monthly: map<MonthKey, Totals>, k: MonthKey): Totals {
    if k in monthly then monthly[k] else NOTHING
  }

  function KeysOf(rows: seq<Interval>, month: Time -> int): set<MonthKey> {
    set r | r in rows :: KeyOf(month, r)
  }

  /** The monthly rows after the given intervals are added, all at once. */
  function Merged(monthly: map<MonthKey, Totals>, month: Time -> int, rows: seq<Interval>): map<MonthKey, Totals> {
    map k | k in monthly.Keys + KeysOf(rows, month) :: Plus(At(monthly, k), Total(rows, month, k))
  }

  lemma {:induction false} TotalElsewhere(rows: seq<Interval>, month: Time -> int, k: MonthKey)
    requires k !in KeysOf(rows, month)
    ensures Total(rows, month, k) == NOTHING
  {
    if rows != [] {
      assert rows[|rows| - 1] in rows;
      assert forall r :: r in rows[..|rows| - 1] ==> r in rows;
      TotalElsewhere(rows[..|rows| - 1], month, k);
    }
  }

  lemma {:induction false} MergedAt(monthly: map<MonthKey, Totals>, month: Time -> int, rows: seq<Interval>,
                                    k: MonthKey)
    ensures At(Merged(monthly, month, rows), k) == Plus(At(monthly, k), Total(rows, month, k))
  {
    if k !in KeysOf(rows, month) {
      TotalElsewhere(rows, month, k);
    }
  }

  lemma {:induction false} MergedKnown(monthly: map<MonthKey, Totals>, month: Time -> int, rows: seq<Interval>,
                                       k: MonthKey)
    ensures Known(At(Merged(monthly, month, rows), k).energy)
         == Known(At(monthly, k).energy) + Known(Total(rows, month, k).energy)
  {
    MergedAt(monthly, month, rows, k);
  }

  lemma {:induction false} TotalAppend(rows: seq<Interval>, r: Interval, month: Time -> int, k: MonthKey)
    ensures Total(rows + [r], month, k)
         == if KeyOf(month, r) == k then Plus(Total(rows, month, k), TotalsOf(r)) else Total(rows, month, k)
  {
    assert (rows + [r])[..|rows|] == rows;
  }

  // ----- selecting and deleting rows -----

  function Keep(rows: seq<Interval>, p: Interval -> bool): (kept: seq<Interval>)
    ensures forall r :: r in kept <==> r in rows && p(r)
    ensures |kept| <= |rows|
  {
    if rows == [] then []
    else
      var k := Keep(rows[..|rows| - 1], p);
      assert forall r :: r in rows <==> r in rows[..|rows| - 1] || r == rows[|rows| - 1];
      if p(rows[|rows| - 1]) then k + [rows[|rows| - 1]] else k
  }

  function Not(p: Interval -> bool): Interval -> bool {
    (r: Interval) => !p(r)
  }

  function WithIds(ids: set<nat>): Interval -> bool {
    (r: Interval) => r.id in ids
  }

  function Drop(rows: seq<Interval>, p: Interval -> bool): seq<Interval> {
    Keep(rows, Not(p))
  }

  /** Keeping and dropping by the same test loses no totals. */
  lemma {:induction false} TotalsPart(rows: seq<Interval>, p: Interval -> bool, month: Time -> int, k: MonthKey)
    ensures Plus(Total(Keep(rows, p), month, k), Total(Drop(rows, p), month, k)) == Total(rows, month, k)
  {
    if rows != [] {
      var init, r := rows[..|rows| - 1], rows[|rows| - 1];
      TotalsPart(init, p, month, k);
      var kept, dropped := Total(Keep(init, p), month, k), Total(Drop(init, p), month, k);
      if p(r) {
        assert Drop(rows, p) == Drop(init, p);
        TotalAppend(Keep(init, p), r, month, k);
        PlusLaws(kept, TotalsOf(r), dropped);
        PlusLaws(TotalsOf(r), dropped, kept);
        PlusLaws(kept, dropped, TotalsOf(r));
      } else {
        assert Keep(rows, p) == Keep(init, p);
        TotalAppend(Drop(init, p), r, month, k);
        PlusLaws(kept, dropped, TotalsOf(r));
      }
    }
  }

  lemma {:induction false} KeepTwice(rows: seq<Interval>, p: Interval -> bool, q: Interval -> bool,
                                     both: Interval -> bool)
    requires forall r :: r in rows ==> (both(r) <==> p(r) && q(r))
    ensures Keep(Keep(rows, p), q) == Keep(rows, both)
  {
    if rows != [] {
      var init, r := rows[..|rows| - 1], rows[|rows| - 1];
      assert forall x :: x in init ==> x in rows;
      KeepTwice(init, p, q, both);
      if p(r) {
        assert (Keep(init, p) + [r])[..|Keep(init, p)|] == Keep(init, p);
      }
    }
  }

  lemma {:induction false} KeepSame(rows: seq<Interval>, p: Interval -> bool, q: Interval -> bool)
    requires forall r :: r in rows ==> (p(r) <==> q(r))
    ensures Keep(rows, p) == Keep(rows, q)
  {
    if rows != [] {
      assert forall x :: x in rows[..|rows| - 1] ==> x in rows;
      KeepSame(rows[..|rows| - 1], p, q);
    }
  }

  /** A row kept keeps its place among the others. */
  lemma {:induction false} KeepOrder(rows: seq<Interval>, p: Interval -> bool, i: nat, j: nat)
      returns (i': nat, j': nat)
    requires i < j < |Keep(rows, p)|
    ensures i' < j' < |rows| && rows[i'] == Keep(rows, p)[i] && rows[j'] == Keep(rows, p)[j]
  {
    var init := rows[..|rows| - 1];
    if j < |Keep(init, p)| {
      i', j' := KeepOrder(init, p, i, j);
    } else {
      j' := |rows| - 1;
      assert Keep(init, p)[i] in init;
      i' :| i' < |init| && init[i'] == Keep(init, p)[i];
    }
  }

  lemma {:induction false} SumOfKept(rows: seq<Interval>, p: Interval -> bool, f: Interval -> real)
    ensures Sum(Keep(rows, p), f) == Sum(rows, (r: Interval) => if p(r) then f(r) else 0.0)
  {
    if rows != [] {
      var init, r := rows[..|rows| - 1], rows[|rows| - 1];
      SumOfKept(init, p, f);
      SumAppend(Keep(init, p), r, f);
    }
  }

  // ----- the steps -----

  /** Roll the selected rows up: into the monthly rows and out of the live ones. */
  function RollUp(s: Store, month: Time -> int, p: Interval -> bool): Store {
    s.(rows := Drop(s.rows, p), monthly := Merged(s.monthly, month, Keep(s.rows, p)))
  }

  function Cleared(meters: map<nat, MeterState>, gone: set<nat>): map<nat, MeterState> {
    map o | o in meters ::
      if meters[o].lastId.Some? && meters[o].lastId.value in gone then meters[o].(lastId := None) else meters[o]
  }

  function IdsWhere(rows: seq<Interval>, p: Interval -> bool): set<nat> {
    set r | r in rows && p(r) :: r.id
  }

  /** Delete the selected rows, and clear every pointer at one of them. */
  function Delete(s: Store, p: Interval -> bool): Store {
    s.(rows := Drop(s.rows, p), meters := Cleared(s.meters, IdsWhere(s.rows, p)))
  }

  predicate Expired(cutoff: Time, r: Interval) { r.toAt < cutoff }

  function Aged(cutoff: Time): Interval -> bool {
    (r: Interval) => Expired(cutoff, r)
  }

  // ----- what the two deletions mean, row by row -----

  /** A row counts for a monthly row: its outlet, the month it starts in, its flag. */
  predicate Falls(month: Time -> int, r: Interval, k: MonthKey) {
    r.outlet == k.outlet && month(r.fromAt) == k.month && r.who.standalone == k.standalone
  }

  function One(month: Time -> int, k: MonthKey): Interval -> real {
    (r: Interval) => if Falls(month, r, k) then 1.0 else 0.0
  }

  function Energy(month: Time -> int, k: MonthKey): Interval -> real {
    (r: Interval) => if Falls(month, r, k) && r.energy.Some? then r.energy.value as real else 0.0
  }

  function Water(month: Time -> int, k: MonthKey): Interval -> real {
    (r: Interval) => if Falls(month, r, k) && r.water.Some? then r.water.value as real else 0.0
  }

  /** A monthly total is the sum of the known figures of its rows, and unknown when none is known. */
  lemma {:induction false} TotalMeans(rows: seq<Interval>, month: Time -> int, k: MonthKey)
    ensures var t := Total(rows, month, k);
      && t.count as real == Sum(rows, One(month, k))
      && Known(t.energy) as real == Sum(rows, Energy(month, k)) && Known(t.water) as real == Sum(rows, Water(month, k))
      && (t.energy.None? <==> forall r :: r in rows && Falls(month, r, k) ==> r.energy.None?)
      && (t.water.None? <==> forall r :: r in rows && Falls(month, r, k) ==> r.water.None?)
  {
    if rows != [] {
      var init, last := rows[..|rows| - 1], rows[|rows| - 1];
      TotalMeans(init, month, k);
      assert forall r :: r in rows <==> r in init || r == last;
      assert KeyOf(month, last) == k <==> Falls(month, last, k);
    }
  }

  function Older(cutoff: Time, f: Interval -> real): Interval -> real {
    (r: Interval) => if r.toAt < cutoff then f(r) else 0.0
  }

  /** The roll-up takes out exactly the rows that ended before the cutoff. */
  lemma RollUpTakes(s: Store, month: Time -> int, cutoff: Time)
    ensures var t := RollUp(s, month, Aged(cutoff));
      && (forall r :: r in t.rows <==> r in s.rows && cutoff <= r.toAt)
      && t.nextId == s.nextId && t.meters == s.meters
  {}

  /** It adds to each monthly row their known figures and their number; a figure that was unknown stays so
      when none of them knows it. */
  lemma RollUpAdds(s: Store, month: Time -> int, cutoff: Time, k: MonthKey)
    ensures var after, before := At(RollUp(s, month, Aged(cutoff)).monthly, k), At(s.monthly, k);
      && Known(after.energy) as real == Known(before.energy) as real + Sum(s.rows, Older(cutoff, Energy(month, k)))
      && Known(after.water) as real == Known(before.water) as real + Sum(s.rows, Older(cutoff, Water(month, k)))
      && after.count as real == before.count as real + Sum(s.rows, Older(cutoff, One(month, k)))
      && (after.energy.None? <==> before.energy.None? && NoEnergy(s.rows, month, cutoff, k))
      && (after.water.None? <==> before.water.None? && NoWater(s.rows, month, cutoff, k))
  {
    RolledTotal(s.rows, month, cutoff, k);
    MergedAt(s.monthly, month, Keep(s.rows, Aged(cutoff)), k);
    hide Keep, Sum, Total, Merged, NoEnergy, NoWater;
  }

  ghost predicate NoEnergy(rows: seq<Interval>, month: Time -> int, cutoff: Time, k: MonthKey) {
    forall r :: r in rows && r.toAt < cutoff && Falls(month, r, k) ==> r.energy.None?
  }

  ghost predicate NoWater(rows: seq<Interval>, month: Time -> int, cutoff: Time, k: MonthKey) {
    forall r :: r in rows && r.toAt < cutoff && Falls(month, r, k) ==> r.water.None?
  }

  lemma {:induction false} RolledTotal(rows: seq<Interval>, month: Time -> int, cutoff: Time, k: MonthKey)
    ensures var t := Total(Keep(rows, Aged(cutoff)), month, k);
      && Known(t.energy) as real == Sum(rows, Older(cutoff, Energy(month, k)))
      && Known(t.water) as real == Sum(rows, Older(cutoff, Water(month, k)))
      && t.count as real == Sum(rows, Older(cutoff, One(month, k)))
      && (t.energy.None? <==> NoEnergy(rows, month, cutoff, k)) && (t.water.None? <==> NoWater(rows, month, cutoff, k))
  {
    TotalMeans(Keep(rows, Aged(cutoff)), month, k);
    SumOfAged(rows, cutoff, Energy(month, k));
    SumOfAged(rows, cutoff, Water(month, k));
    SumOfAged(rows, cutoff, One(month, k));
  }

  lemma {:induction false} SumOfAged(rows: seq<Interval>, cutoff: Time, f: Interval -> real)
    ensures Sum(Keep(rows, Aged(cutoff)), f) == Sum(rows, Older(cutoff, f))
  {
    SumOfKept(rows, Aged(cutoff), f);
    SumSame(rows, (r: Interval) => if Aged(cutoff)(r) then f(r) else 0.0, Older(cutoff, f));
  }

  /** The deletion takes out exactly the simulated outlets' rows that ended before the cutoff, clears
      exactly the pointers at those, and touches nothing else. */
  lemma DeleteMeans(s: Store, simulated: set<nat>, cutoff: Time)
    ensures var t := Delete(s, Simulated(cutoff, simulated));
      && (forall r :: r in t.rows <==> r in s.rows && !(r.toAt < cutoff && r.outlet in simulated))
      && t.nextId == s.nextId && t.monthly == s.monthly && t.meters.Keys == s.meters.Keys
      && forall o :: o in s.meters ==>
           && t.meters[o].register == s.meters[o].register && t.meters[o].readAt == s.meters[o].readAt
           && t.meters[o].lastId ==
                if exists r :: r in s.rows && r.toAt < cutoff && r.outlet in simulated
                               && s.meters[o].lastId == Some(r.id)
                then None else s.meters[o].lastId
  {
    var gone := IdsWhere(s.rows, Simulated(cutoff, simulated));
    forall o | o in s.meters
      ensures s.meters[o].lastId.Some? && s.meters[o].lastId.value in gone <==>
        exists r :: r in s.rows && r.toAt < cutoff && r.outlet in simulated && s.meters[o].lastId == Some(r.id)
    {}
  }

  /** What can happen to the tables, each a committed transaction: a reading; one chunk of the
      roll-up, whichever expired rows it took; one chunk of the deletion of simulated history. */
  datatype Op = Read(r: Reading) | Roll(cutoff: Time, ids: set<nat>) | Purge(cutoff: Time, ids: set<nat>)

  function Rolled(op: Op): Interval -> bool
    requires op.Roll?
  {
    (r: Interval) => Expired(op.cutoff, r) && r.id in op.ids
  }

  function Simulated(cutoff: Time, simulated: set<nat>): Interval -> bool {
    (r: Interval) => Expired(cutoff, r) && r.outlet in simulated
  }

  function Purged(op: Op, simulated: set<nat>): Interval -> bool
    requires op.Purge?
  {
    (r: Interval) => Expired(op.cutoff, r) && r.outlet in simulated && r.id in op.ids
  }

  function Step(s: Store, month: Time -> int, simulated: set<nat>, op: Op): Store {
    match op
    case Read(r) => Record(s, r)
    case Roll(_, _) => RollUp(s, month, Rolled(op))
    case Purge(_, _) => Delete(s, Purged(op, simulated))
  }

  function Run(month: Time -> int, simulated: set<nat>, ops: seq<Op>): Store {
    if ops == [] then EMPTY
    else Step(Run(month, simulated, ops[..|ops| - 1]), month, simulated, ops[|ops| - 1])
  }

  // ----- what every run keeps -----

  lemma DropKeepsValid(s: Store, p: Interval -> bool, t: Store)
    requires Valid(s)
    requires t.rows == Drop(s.rows, p) && t.nextId == s.nextId && t.meters.Keys == s.meters.Keys
    requires forall o :: o in s.meters ==>
      t.meters[o].register == s.meters[o].register && t.meters[o].readAt == s.meters[o].readAt
    requires forall o :: o in s.meters ==>
      t.meters[o].lastId == s.meters[o].lastId
      || (t.meters[o].lastId.None? && s.meters[o].lastId.Some?
          && forall r :: r in t.rows ==> r.id != s.meters[o].lastId.value)
    ensures Valid(t)
  {
    forall i | 0 <= i < |t.rows|
      ensures t.rows[i] in s.rows && Sound(t.rows[i]) && BehindMeter(t, t.rows[i]) && t.rows[i].id < t.nextId
    {
      assert t.rows[i] in t.rows;
      var i' :| 0 <= i' < |s.rows| && s.rows[i'] == t.rows[i];
      assert Sound(s.rows[i']) && BehindMeter(s, s.rows[i']);
    }
    forall i, j | 0 <= i < j < |t.rows| ensures Apart(t.rows[i], t.rows[j]) && t.rows[i].id < t.rows[j].id {
      var i', j' := KeepOrder(s.rows, Not(p), i, j);
      assert Apart(s.rows[i'], s.rows[j']);
    }
    forall o | o in t.meters ensures PointerHolds(t, o) {
      assert PointerHolds(s, o);
      forall i | 0 <= i < |t.rows| && t.meters[o].lastId == Some(t.rows[i].id)
        ensures t.rows[i].outlet == o && t.rows[i].toAt == t.meters[o].readAt
      {
        var i' :| 0 <= i' < |s.rows| && s.rows[i'] == t.rows[i];
      }
    }
  }

  lemma {:induction false} StepKeepsValid(s: Store, month: Time -> int, simulated: set<nat>, op: Op)
    requires Valid(s)
    ensures Valid(Step(s, month, simulated, op))
  {
    match op
    case Read(r) => RecordKeepsValid(s, r);
    case Roll(_, _) => DropKeepsValid(s, Rolled(op), Step(s, month, simulated, op));
    case Purge(_, _) => DropKeepsValid(s, Purged(op, simulated), Step(s, month, simulated, op));
  }

  /** Over any interleaving of readings and committed chunks: intervals of an outlet are
      ordered and disjoint, idle stretches are single rows, no row is standalone with a session,
      and a meter's pointer, dangling or not, never leads to another outlet's row. */
  lemma {:induction false} RunIsValid(month: Time -> int, simulated: set<nat>, ops: seq<Op>)
    ensures Valid(Run(month, simulated, ops))
  {
    if ops != [] {
      RunIsValid(month, simulated, ops[..|ops| - 1]);
      StepKeepsValid(Run(month, simulated, ops[..|ops| - 1]), month, simulated, ops[|ops| - 1]);
    }
  }

  // ----- conservation -----

  /** Live and monthly together, for one outlet, month and flag. */
  function Ledger(s: Store, month: Time -> int, k: MonthKey): Totals {
    Plus(At(s.monthly, k), Total(s.rows, month, k))
  }

  /** The last register and its time, by the readings alone. */
  function Registers(ops: seq<Op>): map<nat, (int, Time)> {
    if ops == [] then map[]
    else
      var m, op := Registers(ops[..|ops| - 1]), ops[|ops| - 1];
      if op.Read? && (op.r.outlet !in m || m[op.r.outlet].1 < op.r.at) then m[op.r.outlet := (op.r.register, op.r.at)]
      else m
  }

  /** The register step a reading is good for, given the registers before it. */
  function Advance(m: map<nat, (int, Time)>, month: Time -> int, r: Reading, k: MonthKey): int {
    if r.outlet in m && m[r.outlet].1 < r.at && m[r.outlet].0 <= r.register
       && k == MonthKey(r.outlet, month(m[r.outlet].1), r.smartMode == Some(false))
    then r.register - m[r.outlet].0 else 0
  }

  /** All non-negative register steps accepted for an outlet, month and flag. */
  function Booked(month: Time -> int, ops: seq<Op>, k: MonthKey): int {
    if ops == [] then 0
    else
      Booked(month, ops[..|ops| - 1], k)
      + if ops[|ops| - 1].Read? then Advance(Registers(ops[..|ops| - 1]), month, ops[|ops| - 1].r, k) else 0
  }

  /** The rows ever created for an outlet, month and flag. */
  function Created(month: Time -> int, simulated: set<nat>, ops: seq<Op>, k: MonthKey): nat {
    if ops == [] then 0
    else
      var s, op := Run(month, simulated, ops[..|ops| - 1]), ops[|ops| - 1];
      Created(month, simulated, ops[..|ops| - 1], k)
      + if op.Read? && Judge(s, op.r) == Added && KeyOf(month, NewRow(s.nextId, s.meters[op.r.outlet], op.r)) == k
        then 1 else 0
  }

  ghost predicate Agrees(s: Store, m: map<nat, (int, Time)>) {
    && s.meters.Keys == m.Keys
    && forall o :: o in m ==> s.meters[o].register == Some(m[o].0) && s.meters[o].readAt == m[o].1
  }

  lemma {:induction false} RegistersAgree(month: Time -> int, simulated: set<nat>, ops: seq<Op>)
    ensures Agrees(Run(month, simulated, ops), Registers(ops))
  {
    if ops != [] {
      var init, op := ops[..|ops| - 1], ops[|ops| - 1];
      RegistersAgree(month, simulated, init);
      if op.Read? {
        RecordAgrees(Run(month, simulated, init), Registers(init), op.r);
      }
    }
  }

  lemma RecordAgrees(s: Store, m: map<nat, (int, Time)>, r: Reading)
    requires Agrees(s, m)
    ensures Agrees(Record(s, r),
                   if r.outlet !in m || m[r.outlet].1 < r.at then m[r.outlet := (r.register, r.at)] else m)
  {}

  lemma {:induction false} TotalUpdate(rows: seq<Interval>, i: nat, x: Interval, month: Time -> int, k: MonthKey)
    requires i < |rows|
    requires KeyOf(month, x) == KeyOf(month, rows[i]) && TotalsOf(x) == TotalsOf(rows[i])
    ensures Total(rows[i := x], month, k) == Total(rows, month, k)
  {
    var n := |rows| - 1;
    if i < n {
      TotalUpdate(rows[..n], i, x, month, k);
      assert rows[i := x][..n] == rows[..n][i := x];
    } else {
      assert rows[i := x][..n] == rows[..n];
    }
  }

  lemma ReadBooks(s: Store, month: Time -> int, m: map<nat, (int, Time)>, r: Reading, k: MonthKey)
    requires Valid(s) && Agrees(s, m)
    ensures Known(Ledger(Record(s, r), month, k).energy) == Known(Ledger(s, month, k).energy) + Advance(m, month, r, k)
    ensures Ledger(Record(s, r), month, k).count == Ledger(s, month, k).count
      + if Judge(s, r) == Added && KeyOf(month, NewRow(s.nextId, s.meters[r.outlet], r)) == k then 1 else 0
  {
    if Judge(s, r) == Added {
      TotalAppend(s.rows, NewRow(s.nextId, s.meters[r.outlet], r), month, k);
    } else if Judge(s, r) == Extended {
      var i := Extendable(s, r).value;
      TotalUpdate(s.rows, i, s.rows[i].(toAt := r.at, meterTo := r.register), month, k);
    }
  }

  lemma RollUpKeepsLedger(s: Store, month: Time -> int, p: Interval -> bool, k: MonthKey)
    ensures Ledger(RollUp(s, month, p), month, k) == Ledger(s, month, k)
  {
    MergedAt(s.monthly, month, Keep(s.rows, p), k);
    TotalsPart(s.rows, p, month, k);
    PlusLaws(At(s.monthly, k), Total(Keep(s.rows, p), month, k), Total(Drop(s.rows, p), month, k));
  }

  lemma {:induction false} DropElsewhere(rows: seq<Interval>, p: Interval -> bool, month: Time -> int, k: MonthKey)
    requires forall r :: r in rows && r.outlet == k.outlet ==> !p(r)
    ensures Total(Drop(rows, p), month, k) == Total(rows, month, k)
  {
    if rows != [] {
      var init, r := rows[..|rows| - 1], rows[|rows| - 1];
      assert forall x :: x in init ==> x in rows;
      DropElsewhere(init, p, month, k);
      TotalAppend(Drop(init, p), r, month, k);
    }
  }

  /** Conservation. Over any interleaving of readings and committed chunks, for every real
      outlet, month and flag: live plus monthly energy is exactly the register steps accepted,
      and live rows plus `interval_count` are the rows ever created. */
  lemma {:induction false} Conservation(month: Time -> int, simulated: set<nat>, ops: seq<Op>, k: MonthKey)
    requires k.outlet !in simulated
    ensures Known(Ledger(Run(month, simulated, ops), month, k).energy) == Booked(month, ops, k)
    ensures Ledger(Run(month, simulated, ops), month, k).count == Created(month, simulated, ops, k)
  {
    if ops != [] {
      var init, op := ops[..|ops| - 1], ops[|ops| - 1];
      var s := Run(month, simulated, init);
      hide Ledger, Record, RollUp, Delete, Judge, NewRow, KeyOf, Advance, Valid, Agrees;
      Conservation(month, simulated, init, k);
      RunIsValid(month, simulated, init);
      RegistersAgree(month, simulated, init);
      match op
      case Read(r) => ReadBooks(s, month, Registers(init), r, k);
      case Roll(_, _) => RollUpKeepsLedger(s, month, Rolled(op), k);
      case Purge(_, _) => DeleteKeepsLedger(s, simulated, month, op, k);
    }
  }

  lemma DeleteKeepsLedger(s: Store, simulated: set<nat>, month: Time -> int, op: Op, k: MonthKey)
    requires op.Purge? && k.outlet !in simulated
    ensures Ledger(Delete(s, Purged(op, simulated)), month, k) == Ledger(s, month, k)
  {
    DropElsewhere(s.rows, Purged(op, simulated), month, k);
  }

  // ----- retention is invisible to the windows it must not touch -----

  /** Rolling up whatever expired before the cutoff leaves every window that starts at or after
      the cutoff as it was, for any set of outlets. */
  lemma {:induction false} RollUpInvisible(rows: seq<Interval>, cutoff: Time, p: Interval -> bool,
                                           outlets: set<nat>, a: Time, b: Time)
    requires forall r :: r in rows && p(r) ==> Expired(cutoff, r) || r.outlet !in outlets
    requires cutoff <= a
    ensures EnergyBetween(Drop(rows, p), outlets, a, b) == EnergyBetween(rows, outlets, a, b)
  {
    if rows != [] {
      var init, r := rows[..|rows| - 1], rows[|rows| - 1];
      assert forall x :: x in init ==> x in rows;
      RollUpInvisible(init, cutoff, p, outlets, a, b);
      if p(r) {
        if Expired(cutoff, r) {
          ShareOutside(r, a, b);
        }
      } else {
        SumAppend(Drop(init, p), r, ShareOf(outlets, a, b));
      }
    }
  }

  /** One retention run: simulated history first, then the roll-up. */
  function RetentionRun(s: Store, month: Time -> int, simulated: set<nat>, simulatedCutoff: Time, cutoff: Time): Store {
    RollUp(Delete(s, Simulated(simulatedCutoff, simulated)), month,
           Aged(cutoff))
  }

  /** A run leaves the energy of real outlets unchanged in every window from the interval
      cutoff on, and loses none of their totals. */
  lemma RetentionInvisible(s: Store, month: Time -> int, simulated: set<nat>, simulatedCutoff: Time, cutoff: Time,
                           outlets: set<nat>, a: Time, b: Time, k: MonthKey)
    requires outlets !! simulated && cutoff <= a && k.outlet !in simulated
    ensures var t := RetentionRun(s, month, simulated, simulatedCutoff, cutoff);
      && EnergyBetween(t.rows, outlets, a, b) == EnergyBetween(s.rows, outlets, a, b)
      && Ledger(t, month, k) == Ledger(s, month, k)
  {
    var p := Simulated(simulatedCutoff, simulated);
    var d := Delete(s, p);
    RollUpInvisible(s.rows, cutoff, p, outlets, a, b);
    RollUpInvisible(d.rows, cutoff, Aged(cutoff), outlets, a, b);
    DropElsewhere(s.rows, p, month, k);
    RollUpKeepsLedger(d, month, Aged(cutoff), k);
  }

  /** A run touches a simulated outlet's monthly rows exactly when some simulated row expired
      for the roll-up but not for the deletion. */
  lemma SimulatedMonthly(s: Store, month: Time -> int, simulated: set<nat>, simulatedCutoff: Time, cutoff: Time)
    ensures
      (forall k: MonthKey :: k.outlet in simulated ==>
         At(RetentionRun(s, month, simulated, simulatedCutoff, cutoff).monthly, k) == At(s.monthly, k))
      <==> (forall r :: r in s.rows && r.outlet in simulated ==> !(simulatedCutoff <= r.toAt < cutoff))
  {
    var d := Delete(s, Simulated(simulatedCutoff, simulated));
    var aged := Keep(d.rows, Aged(cutoff));
    forall k ensures At(Merged(s.monthly, month, aged), k) == Plus(At(s.monthly, k), Total(aged, month, k)) {
      MergedAt(s.monthly, month, aged, k);
    }
    if r :| r in s.rows && r.outlet in simulated && simulatedCutoff <= r.toAt < cutoff {
      assert r in d.rows && r in aged;
      TotalCounts(aged, month, r);
    } else {
      forall k: MonthKey | k.outlet in simulated ensures Total(aged, month, k) == NOTHING {
        TotalElsewhere(aged, month, k);
      }
    }
  }

  /** With the simulated window no longer than the interval window, no monthly row of a
      simulated outlet is ever made or changed. */
  lemma {:induction false} SimulatedUntouched(s: Store, month: Time -> int, simulated: set<nat>, simulatedCutoff: Time,
                                              cutoff: Time, k: MonthKey)
    requires cutoff <= simulatedCutoff && k.outlet in simulated
    ensures At(RetentionRun(s, month, simulated, simulatedCutoff, cutoff).monthly, k) == At(s.monthly, k)
  {
    SimulatedMonthly(s, month, simulated, simulatedCutoff, cutoff);
  }

  lemma {:induction false} TotalCounts(rows: seq<Interval>, month: Time -> int, r: Interval)
    requires r in rows
    ensures Total(rows, month, KeyOf(month, r)).count > 0
  {
    if r != rows[|rows| - 1] {
      TotalCounts(rows[..|rows| - 1], month, r);
    }
  }
}
