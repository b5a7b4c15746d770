/** Where the intervals of an outlet touch: over any run, each row begins where and with the register
    the row before it ended, exactly unless the chain was restarted in between. */
module Joints {
  import opened Quantities
  import opened Metering
  import opened Retention

  function OfOutlet(o: nat): Interval -> bool {
    (r: Interval) => r.outlet == o
  }

  /** The rows of one outlet, in their order. */
  function ChainOf(rows: seq<Interval>, o: nat): seq<Interval> { Keep(rows, OfOutlet(o)) }

  /** When the outlet's chain was restarted, by the readings alone: a newer reading with a lower register. */
  function Restarts(ops: seq<Op>, o: nat): set<Time> {
    if ops == [] then {}
    else
      var m, op := Registers(ops[..|ops| - 1]), ops[|ops| - 1];
      Restarts(ops[..|ops| - 1], o)
      + if op.Read? && op.r.outlet == o && o in m && m[o].1 < op.r.at && op.r.register < m[o].0 then {op.r.at} else {}
  }

  predicate Restarted(restarts: set<Time>, after: Time, till: Time) {
    exists t :: t in restarts && after < t <= till
  }

  /** An end and the next beginning, each an instant and a register, are one exactly when no restart
      lies in between. */
  predicate Joined(restarts: set<Time>, end: (Time, int), start: (Time, int)) {
    end == start <==> !Restarted(restarts, end.0, start.0)
  }

  function EndOf(r: Interval): (Time, int) { (r.toAt, r.meterTo) }

  function StartOf(r: Interval): (Time, int) { (r.fromAt, r.meterFrom) }

  /** Each row of the chain is joined to the one before, and the meter to the last. */
  ghost predicate JoinedChain(c: seq<Interval>, meter: (Time, int), restarts: set<Time>) {
    && (forall i :: 0 < i < |c| ==> Joined(restarts, EndOf(c[i - 1]), StartOf(c[i])))
    && (c != [] ==> Joined(restarts, EndOf(c[|c| - 1]), meter))
  }

  // ----- what a chunk may take -----

  /** Of the outlet's rows, those taken stand before those left. */
  ghost predicate TakesFront(rows: seq<Interval>, p: Interval -> bool, o: nat) {
    forall i, j :: 0 <= i < j < |rows| && rows[i].outlet == o && rows[j].outlet == o && p(rows[j]) ==> p(rows[i])
  }

  /** Every chunk of the run took the outlet's oldest rows, if any. */
  ghost predicate Orderly(month: Time -> int, simulated: set<nat>, ops: seq<Op>, o: nat) {
    ops == [] ||
    (Orderly(month, simulated, ops[..|ops| - 1], o) &&
     var rows, op := Run(month, simulated, ops[..|ops| - 1]).rows, ops[|ops| - 1];
     match op
     case Read(_) => true
     case Roll(_, _) => TakesFront(rows, Rolled(op), o)
     case Purge(_, _) => TakesFront(rows, Purged(op, simulated), o))
  }

  /** A row kept keeps its place among the others. */
  lemma {:induction false} KeepPlaces(rows: seq<Interval>, p: Interval -> bool, i: nat, j: nat)
      returns (i': nat, j': nat)
    requires i < j < |rows| && p(rows[i]) && p(rows[j])
    ensures i' < j' < |Keep(rows, p)| && Keep(rows, p)[i'] == rows[i] && Keep(rows, p)[j'] == rows[j]
  {
    var init := rows[..|rows| - 1];
    if j < |init| {
      i', j' := KeepPlaces(init, p, i, j);
    } else {
      assert rows[i] in init && rows[i] in Keep(init, p);
      i' :| i' < |Keep(init, p)| && Keep(init, p)[i'] == rows[i];
      j' := |Keep(init, p)|;
    }
  }

  /** The roll-up's chunk, the first expired rows by id, takes every outlet's oldest. */
  lemma ChunkTakesFront(s: Store, cutoff: Time, n: nat, ids: set<nat>, o: nat)
    requires Valid(s) && n <= |Keep(s.rows, Aged(cutoff))|
    requires ids == set r | r in Keep(s.rows, Aged(cutoff))[..n] :: r.id
    ensures TakesFront(s.rows, Rolled(Roll(cutoff, ids)), o)
  {
    var rows, e, p := s.rows, Keep(s.rows, Aged(cutoff)), Rolled(Roll(cutoff, ids));
    forall i, j | 0 <= i < j < |rows| && rows[i].outlet == o && rows[j].outlet == o && p(rows[j])
      ensures p(rows[i])
    {
      assert Apart(rows[i], rows[j]) && Sound(rows[j]);
      var i', j' := KeepPlaces(rows, Aged(cutoff), i, j);
      var k :| 0 <= k < n && e[k].id == rows[j].id;
      SamePlace(s, cutoff, k, j');
      assert e[i'] in e[..n];
    }
  }

  lemma SamePlace(s: Store, cutoff: Time, k: nat, j: nat)
    requires IdsGrow(s)
    requires var e := Keep(s.rows, Aged(cutoff)); k < |e| && j < |e| && e[k].id == e[j].id
    ensures k == j
  {
    var e := Keep(s.rows, Aged(cutoff));
    if k < j {
      var a, b := KeepOrder(s.rows, Aged(cutoff), k, j);
    } else if j < k {
      var a, b := KeepOrder(s.rows, Aged(cutoff), j, k);
    }
  }

  lemma {:induction false} DropsFront(rows: seq<Interval>, p: Interval -> bool, o: nat) returns (n: nat)
    requires TakesFront(rows, p, o)
    ensures n <= |ChainOf(rows, o)| && ChainOf(Drop(rows, p), o) == ChainOf(rows, o)[n..]
  {
    n := 0;
    if rows != [] {
      var init, r := rows[..|rows| - 1], rows[|rows| - 1];
      n := DropsFront(init, p, o);
      var c := ChainOf(init, o);
      if r.outlet == o && p(r) {
        AllTaken(init, p, o);
        n := |c| + 1;
        assert ChainOf(rows, o)[n..] == [];
      } else if r.outlet == o {
        assert ChainOf(rows, o) == c + [r];
        assert (Drop(init, p) + [r])[..|Drop(init, p)|] == Drop(init, p);
        assert (c + [r])[n..] == c[n..] + [r];
      } else if !p(r) {
        assert (Drop(init, p) + [r])[..|Drop(init, p)|] == Drop(init, p);
      }
    }
  }

  lemma {:induction false} AllTaken(rows: seq<Interval>, p: Interval -> bool, o: nat)
    requires forall i :: 0 <= i < |rows| && rows[i].outlet == o ==> p(rows[i])
    ensures ChainOf(Drop(rows, p), o) == []
  {
    if rows != [] {
      var init, r := rows[..|rows| - 1], rows[|rows| - 1];
      AllTaken(init, p, o);
      if !p(r) {
        assert (Drop(init, p) + [r])[..|Drop(init, p)|] == Drop(init, p);
      }
    }
  }

  lemma DropJoins(rows: seq<Interval>, p: Interval -> bool, o: nat, meter: (Time, int), restarts: set<Time>)
    requires TakesFront(rows, p, o) && JoinedChain(ChainOf(rows, o), meter, restarts)
    ensures JoinedChain(ChainOf(Drop(rows, p), o), meter, restarts)
  {
    var n := DropsFront(rows, p, o);
    var c := ChainOf(rows, o);
    forall i | 0 < i < |c[n..]| ensures Joined(restarts, EndOf(c[n..][i - 1]), StartOf(c[n..][i])) {
      assert c[n..][i - 1] == c[n + i - 1] && c[n..][i] == c[n + i];
    }
  }

  // ----- what a reading does -----

  lemma {:induction false} UpdateLast(rows: seq<Interval>, k: nat, x: Interval, o: nat)
    requires k < |rows| && rows[k].outlet == o && x.outlet == o
    requires forall j :: k < j < |rows| ==> rows[j].outlet != o
    ensures var c := ChainOf(rows, o);
      c != [] && c[|c| - 1] == rows[k] && ChainOf(rows[k := x], o) == c[..|c| - 1] + [x]
  {
    var n := |rows| - 1;
    if k < n {
      UpdateLast(rows[..n], k, x, o);
      assert rows[k := x][..n] == rows[..n][k := x];
    } else {
      assert rows[k := x][..n] == rows[..n];
    }
  }

  lemma {:induction false} UpdateElsewhere(rows: seq<Interval>, k: nat, x: Interval, o: nat)
    requires k < |rows| && rows[k].outlet != o && x.outlet != o
    ensures ChainOf(rows[k := x], o) == ChainOf(rows, o)
  {
    var n := |rows| - 1;
    if k < n {
      UpdateElsewhere(rows[..n], k, x, o);
      assert rows[k := x][..n] == rows[..n][k := x];
    } else {
      assert rows[k := x][..n] == rows[..n];
    }
  }

  lemma {:induction false} NoneBefore(rows: seq<Interval>, o: nat)
    requires forall i :: 0 <= i < |rows| ==> rows[i].outlet != o
    ensures ChainOf(rows, o) == []
  {
    if rows != [] {
      NoneBefore(rows[..|rows| - 1], o);
    }
  }

  /** The restarts of an outlet's past are none of its future's. */
  ghost predicate Past(restarts: set<Time>, now: Time) { forall t :: t in restarts ==> t <= now }

  lemma ExtendJoins(s: Store, r: Reading, restarts: set<Time>)
    requires Valid(s) && Judge(s, r) == Extended && Past(restarts, s.meters[r.outlet].readAt)
    requires JoinedChain(ChainOf(s.rows, r.outlet), MeterOf(s, r.outlet), restarts)
    ensures JoinedChain(ChainOf(Record(s, r).rows, r.outlet), (r.at, r.register), restarts)
  {
    var k, o := Extendable(s, r).value, r.outlet;
    assert PointerHolds(s, o);
    forall j | k < j < |s.rows| ensures s.rows[j].outlet != o {
      assert Apart(s.rows[k], s.rows[j]) && Sound(s.rows[j]) && BehindMeter(s, s.rows[j]);
    }
    var x := s.rows[k].(toAt := r.at, meterTo := r.register);
    UpdateLast(s.rows, k, x, o);
  }

  function MeterOf(s: Store, o: nat): (Time, int)
    requires o in s.meters && s.meters[o].register.Some?
  {
    (s.meters[o].readAt, s.meters[o].register.value)
  }

  lemma AddJoins(s: Store, r: Reading, restarts: set<Time>)
    requires Valid(s) && Judge(s, r) == Added && Past(restarts, s.meters[r.outlet].readAt)
    requires JoinedChain(ChainOf(s.rows, r.outlet), MeterOf(s, r.outlet), restarts)
    ensures JoinedChain(ChainOf(Record(s, r).rows, r.outlet), (r.at, r.register), restarts)
  {
    var x := NewRow(s.nextId, s.meters[r.outlet], r);
    assert (s.rows + [x])[..|s.rows|] == s.rows;
    JoinNext(ChainOf(s.rows, r.outlet), MeterOf(s, r.outlet), restarts, x);
  }

  /** A row that begins at the meter carries the chain to its own end. */
  lemma JoinNext(c: seq<Interval>, meter: (Time, int), restarts: set<Time>, x: Interval)
    requires JoinedChain(c, meter, restarts) && StartOf(x) == meter && Past(restarts, meter.0)
    ensures JoinedChain(c + [x], EndOf(x), restarts)
  {}

  /** A restart parts the meter from the last row, and nothing else. */
  lemma RestartParts(c: seq<Interval>, meter: (Time, int), restarts: set<Time>, at: Time, register: int)
    requires JoinedChain(c, meter, restarts) && meter.0 < at
    requires forall i :: 0 <= i < |c| ==> c[i].fromAt < c[i].toAt <= meter.0
    ensures JoinedChain(c, (at, register), restarts + {at})
  {
    forall i | 0 < i < |c| ensures Joined(restarts + {at}, EndOf(c[i - 1]), StartOf(c[i])) {
      assert Joined(restarts, EndOf(c[i - 1]), StartOf(c[i]));
      var end, start := c[i - 1].toAt, c[i].fromAt;
      assert Restarted(restarts, end, start) <==> Restarted(restarts + {at}, end, start);
    }
    if c != [] {
      assert at in restarts + {at} && c[|c| - 1].toAt < at <= at;
    }
  }

  lemma ReadJoins(s: Store, m: map<nat, (int, Time)>, r: Reading, o: nat, restarts: set<Time>)
    requires Valid(s) && Agrees(s, m) && o in m && Past(restarts, m[o].1)
    requires JoinedChain(ChainOf(s.rows, o), MeterOf(s, o), restarts)
    ensures var reset := r.outlet == o && m[o].1 < r.at && r.register < m[o].0;
      JoinedChain(ChainOf(Record(s, r).rows, o), MeterOf(Record(s, r), o), restarts + if reset then {r.at} else {})
  {
    var t := Record(s, r);
    if r.outlet != o {
      OtherReadKeepsChain(s, r, o);
      assert restarts + {} == restarts;
    } else {
      match Judge(s, r)
      case Seeded =>
      case NotNewer => assert restarts + {} == restarts;
      case Extended => ExtendJoins(s, r, restarts); assert restarts + {} == restarts;
      case Added => AddJoins(s, r, restarts); assert restarts + {} == restarts;
      case Reset =>
        var c := ChainOf(s.rows, o);
        forall i | 0 <= i < |c| ensures c[i].fromAt < c[i].toAt <= m[o].1 {
          assert c[i] in s.rows;
          var k :| 0 <= k < |s.rows| && s.rows[k] == c[i];
          assert Sound(s.rows[k]) && BehindMeter(s, s.rows[k]);
        }
        RestartParts(c, MeterOf(s, o), restarts, r.at, r.register);
    }
  }

  lemma OtherReadKeepsChain(s: Store, r: Reading, o: nat)
    requires Valid(s) && r.outlet != o
    ensures ChainOf(Record(s, r).rows, o) == ChainOf(s.rows, o)
    ensures o in s.meters ==> o in Record(s, r).meters && Record(s, r).meters[o] == s.meters[o]
  {
    if Judge(s, r) == Extended {
      var k := Extendable(s, r).value;
      assert PointerHolds(s, r.outlet);
      UpdateElsewhere(s.rows, k, s.rows[k].(toAt := r.at, meterTo := r.register), o);
    } else if Judge(s, r) == Added {
      var x := NewRow(s.nextId, s.meters[r.outlet], r);
      assert (s.rows + [x])[..|s.rows|] == s.rows;
    }
  }

  lemma FirstReadJoins(s: Store, r: Reading, o: nat)
    requires Valid(s) && o !in s.meters
    ensures ChainOf(Record(s, r).rows, o) == []
  {
    forall i | 0 <= i < |s.rows| ensures s.rows[i].outlet != o {
      assert BehindMeter(s, s.rows[i]);
    }
    NoneBefore(s.rows, o);
    if r.outlet != o {
      OtherReadKeepsChain(s, r, o);
    }
  }

  lemma {:induction false} RestartsArePast(ops: seq<Op>, o: nat)
    ensures if o in Registers(ops) then Past(Restarts(ops, o), Registers(ops)[o].1) else Restarts(ops, o) == {}
  {
    if ops != [] {
      RestartsArePast(ops[..|ops| - 1], o);
    }
  }

  // ----- the theorem -----

  lemma StepJoins(s: Store, m: map<nat, (int, Time)>, month: Time -> int, simulated: set<nat>, op: Op, o: nat,
                  restarts: set<Time>)
    requires Valid(s) && Agrees(s, m) && o in m && Past(restarts, m[o].1)
    requires JoinedChain(ChainOf(s.rows, o), MeterOf(s, o), restarts)
    requires op.Roll? ==> TakesFront(s.rows, Rolled(op), o)
    requires op.Purge? ==> TakesFront(s.rows, Purged(op, simulated), o)
    ensures var t := Step(s, month, simulated, op);
      var reset := op.Read? && op.r.outlet == o && m[o].1 < op.r.at && op.r.register < m[o].0;
      && o in t.meters && t.meters[o].register.Some?
      && JoinedChain(ChainOf(t.rows, o), MeterOf(t, o), restarts + if reset then {op.r.at} else {})
  {
    assert restarts + {} == restarts;
    match op
    case Read(r) => ReadJoins(s, m, r, o, restarts);
    case Roll(_, _) => DropJoins(s.rows, Rolled(op), o, MeterOf(s, o), restarts);
    case Purge(_, _) => DropJoins(s.rows, Purged(op, simulated), o, MeterOf(s, o), restarts);
  }

  lemma {:induction false} RunJoins(month: Time -> int, simulated: set<nat>, ops: seq<Op>, o: nat)
    requires Orderly(month, simulated, ops, o) && o in Registers(ops)
    ensures var (register, at) := Registers(ops)[o];
      JoinedChain(ChainOf(Run(month, simulated, ops).rows, o), (at, register), Restarts(ops, o))
    decreases |ops|
  {
    var init, op := ops[..|ops| - 1], ops[|ops| - 1];
    var s := Run(month, simulated, init);
    RunIsValid(month, simulated, init);
    RegistersAgree(month, simulated, init);
    RegistersAgree(month, simulated, ops);
    if o !in Registers(init) {
      FirstReadJoins(s, op.r, o);
    } else {
      RunJoins(month, simulated, init, o);
      RestartsArePast(init, o);
      StepJoins(s, Registers(init), month, simulated, op, o, Restarts(init, o));
    }
  }

  /** The intervals of an outlet touch except at resets: after any run whose chunks take its oldest
      rows first, each of its rows begins at the instant and with the register the row before it
      ended, exactly when no restart lies between the two. */
  lemma {:induction false} TouchExceptAtResets(month: Time -> int, simulated: set<nat>, ops: seq<Op>, o: nat, i: nat)
    requires Orderly(month, simulated, ops, o)
    requires 0 < i < |ChainOf(Run(month, simulated, ops).rows, o)|
    ensures var c := ChainOf(Run(month, simulated, ops).rows, o);
      (c[i].fromAt == c[i - 1].toAt && c[i].meterFrom == c[i - 1].meterTo)
      <==> !Restarted(Restarts(ops, o), c[i - 1].toAt, c[i].fromAt)
  {
    var s := Run(month, simulated, ops);
    RunIsValid(month, simulated, ops);
    RegistersAgree(month, simulated, ops);
    var r := ChainOf(s.rows, o)[i];
    assert r in s.rows;
    var k :| 0 <= k < |s.rows| && s.rows[k] == r;
    assert BehindMeter(s, s.rows[k]);
    RunJoins(month, simulated, ops, o);
    assert Joined(Restarts(ops, o), EndOf(ChainOf(s.rows, o)[i - 1]), StartOf(r));
  }

  /** No chunk of a real outlet's rows is a deletion, so only the roll-up's order matters for it. */
  lemma RealIsNeverPurged(rows: seq<Interval>, op: Op, simulated: set<nat>, o: nat)
    requires op.Purge? && o !in simulated
    ensures TakesFront(rows, Purged(op, simulated), o)
  {}

  /** The ids of the first n rows that have expired, in their order. */
  ghost predicate AreFirst(rows: seq<Interval>, cutoff: Time, ids: set<nat>, n: nat) {
    n <= |Keep(rows, Aged(cutoff))| && ids == set r | r in Keep(rows, Aged(cutoff))[..n] :: r.id
  }

  ghost predicate TookFirst(rows: seq<Interval>, op: Op) {
    op.Roll? ==> exists n :: AreFirst(rows, op.cutoff, op.ids, n)
  }

  /** Every roll-up chunk of the run took the first expired rows by id, as many as it took. */
  ghost predicate RollsById(month: Time -> int, simulated: set<nat>, ops: seq<Op>) {
    ops == [] ||
    (RollsById(month, simulated, ops[..|ops| - 1])
     && TookFirst(Run(month, simulated, ops[..|ops| - 1]).rows, ops[|ops| - 1]))
  }

  lemma {:induction false} RealIsOrderly(month: Time -> int, simulated: set<nat>, ops: seq<Op>, o: nat)
    requires RollsById(month, simulated, ops) && o !in simulated
    ensures Orderly(month, simulated, ops, o)
  {
    if ops != [] {
      var init, op := ops[..|ops| - 1], ops[|ops| - 1];
      var s := Run(month, simulated, init);
      RealIsOrderly(month, simulated, init, o);
      RunIsValid(month, simulated, init);
      match op
      case Read(_) =>
      case Roll(cutoff, ids) =>
        var n :| AreFirst(s.rows, cutoff, ids, n);
        ChunkTakesFront(s, cutoff, n, ids, o);
      case Purge(_, _) => RealIsNeverPurged(s.rows, op, simulated, o);
    }
  }

  /** So over any interleaving of readings, deletions and chunks as the roll-up takes them, the rows of
      every real outlet touch exactly unless its chain was restarted in between. */
  lemma {:induction false} RealRowsTouch(month: Time -> int, simulated: set<nat>, ops: seq<Op>, o: nat, i: nat)
    requires RollsById(month, simulated, ops) && o !in simulated
    requires 0 < i < |ChainOf(Run(month, simulated, ops).rows, o)|
    ensures var c := ChainOf(Run(month, simulated, ops).rows, o);
      (c[i].fromAt == c[i - 1].toAt && c[i].meterFrom == c[i - 1].meterTo)
      <==> !Restarted(Restarts(ops, o), c[i - 1].toAt, c[i].fromAt)
  {
    RealIsOrderly(month, simulated, ops, o);
    TouchExceptAtResets(month, simulated, ops, o, i);
  }
}
