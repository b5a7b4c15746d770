/** What the interval chain means: it stores exactly what a row per reading would, the energy
    between two readings is their register difference, and an idle outlet costs one row. */
module Chain {
  import opened Quantities
  import opened Metering
  import opened Figures
  import opened Retention

  // ----- the reference: one row per accepted reading, nothing extended, whole roll-ups -----

  datatype Plain = Plain(rows: seq<Interval>, monthly: map<MonthKey, Totals>)

  /** The row per accepted reading, given the registers before it. */
  function PlainRow(m: map<nat, (int, Time)>, r: Reading): Interval
    requires r.outlet in m
  {
    Interval(0, r.outlet, Attribute(r), m[r.outlet].1, r.at, Some(r.register - m[r.outlet].0), None,
             m[r.outlet].0, r.register)
  }

  function PlainStep(p: Plain, m: map<nat, (int, Time)>, month: Time -> int, op: Op): Plain {
    match op
    case Read(r) =>
      if r.outlet in m && m[r.outlet].1 < r.at && m[r.outlet].0 <= r.register
      then p.(rows := p.rows + [PlainRow(m, r)]) else p
    case Roll(cutoff, _) =>
      var expired := Aged(cutoff);
      Plain(Drop(p.rows, expired), Merged(p.monthly, month, Keep(p.rows, expired)))
    case Purge(_, _) => p
  }

  function PlainRun(month: Time -> int, ops: seq<Op>): Plain {
    if ops == [] then Plain([], map[])
    else PlainStep(PlainRun(month, ops[..|ops| - 1]), Registers(ops[..|ops| - 1]), month, ops[|ops| - 1])
  }

  /** The run reads and rolls up only, and every roll-up took all that had expired. */
  ghost predicate Whole(month: Time -> int, ops: seq<Op>) {
    ops == [] ||
    (Whole(month, ops[..|ops| - 1]) &&
     match ops[|ops| - 1]
     case Read(_) => true
     case Roll(cutoff, ids) =>
       forall r :: r in Run(month, {}, ops[..|ops| - 1]).rows && Expired(cutoff, r) ==> r.id in ids
     case Purge(_, _) => false)
  }

  function Unnamed(r: Interval): Interval { r.(id := 0) }

  /** A figure to which an idle row adds nothing, and which does not look at row ids. */
  ghost predicate Blind(f: Interval -> real) {
    && (forall r: Interval :: r.energy == Some(0) ==> f(r) == 0.0)
    && (forall r: Interval {:trigger Unnamed(r)} :: f(Unnamed(r)) == f(r))
  }

  function EnergyAt(month: Time -> int, k: MonthKey): Interval -> real {
    (r: Interval) => if KeyOf(month, r) == k then Known(r.energy) as real else 0.0
  }

  function EnergyOf(who: Attribution): Interval -> real {
    (r: Interval) => if r.who == who then Known(r.energy) as real else 0.0
  }

  lemma {:induction false} TotalIsSum(rows: seq<Interval>, month: Time -> int, k: MonthKey)
    ensures Known(Total(rows, month, k).energy) as real == Sum(rows, EnergyAt(month, k))
  {
    if rows != [] {
      TotalIsSum(rows[..|rows| - 1], month, k);
    }
  }

  /** What one reading changes in a sum over the rows. */
  function Gain(s: Store, r: Reading, f: Interval -> real): real {
    match Judge(s, r)
    case Extended =>
      var was := s.rows[Extendable(s, r).value];
      f(was.(toAt := r.at, meterTo := r.register)) - f(was)
    case Added => f(NewRow(s.nextId, s.meters[r.outlet], r))
    case _ => 0.0
  }

  lemma RecordSum(s: Store, r: Reading, f: Interval -> real)
    ensures Sum(Record(s, r).rows, f) == Sum(s.rows, f) + Gain(s, r, f)
  {
    if Judge(s, r) == Extended {
      var i := Extendable(s, r).value;
      SumUpdate(s.rows, i, s.rows[i].(toAt := r.at, meterTo := r.register), f);
    } else if Judge(s, r) == Added {
      SumAppend(s.rows, NewRow(s.nextId, s.meters[r.outlet], r), f);
    }
  }

  /** Summing over what a test keeps, for two stores that agree on every blind figure. */
  lemma {:induction false} KeptAgree(rows: seq<Interval>, plain: seq<Interval>, p: Interval -> bool,
                                     q: Interval -> bool, f: Interval -> real, g: Interval -> real)
    requires forall r :: r in rows ==> (p(r) <==> q(r))
    requires forall r: Interval :: g(r) == if q(r) then f(r) else 0.0
    requires Sum(rows, g) == Sum(plain, g)
    ensures Sum(Keep(rows, p), f) == Sum(Keep(plain, q), f)
  {
    var h := (r: Interval) => if q(r) then f(r) else 0.0;
    KeepSame(rows, p, q);
    SumOfKept(rows, q, f);
    SumOfKept(plain, q, f);
    SumSame(rows, g, h);
    SumSame(plain, g, h);
  }

  function Restricted(f: Interval -> real, q: Interval -> bool): Interval -> real {
    (r: Interval) => if q(r) then f(r) else 0.0
  }

  lemma RestrictedIsBlind(f: Interval -> real, q: Interval -> bool)
    requires Blind(f) && forall r: Interval {:trigger Unnamed(r)} :: q(Unnamed(r)) == q(r)
    ensures Blind(Restricted(f, q))
  {
    var g := Restricted(f, q);
    forall r: Interval | r.energy == Some(0) ensures g(r) == 0.0 {
      assert f(r) == 0.0;
    }
  }

  lemma ReadAgrees(s: Store, p: Plain, m: map<nat, (int, Time)>, month: Time -> int, r: Reading, f: Interval -> real)
    requires Valid(s) && Agrees(s, m) && Blind(f) && Sum(s.rows, f) == Sum(p.rows, f)
    ensures Sum(Record(s, r).rows, f) == Sum(PlainStep(p, m, month, Read(r)).rows, f)
  {
    RecordSum(s, r, f);
    if r.outlet in m && m[r.outlet].1 < r.at && m[r.outlet].0 <= r.register {
      SumAppend(p.rows, PlainRow(m, r), f);
      PlainGain(s, m, r, f);
    }
  }

  lemma PlainGain(s: Store, m: map<nat, (int, Time)>, r: Reading, f: Interval -> real)
    requires Agrees(s, m) && Blind(f)
    requires r.outlet in m && m[r.outlet].1 < r.at && m[r.outlet].0 <= r.register
    ensures Gain(s, r, f) == f(PlainRow(m, r))
  {
    if Judge(s, r) == Extended {
      var was := s.rows[Extendable(s, r).value];
      assert f(was) == 0.0 && f(was.(toAt := r.at, meterTo := r.register)) == 0.0;
    } else {
      assert PlainRow(m, r) == Unnamed(NewRow(s.nextId, s.meters[r.outlet], r));
    }
  }

  /** Rolling up whatever expired keeps two stores in agreement. */
  lemma RollAgrees(s: Store, p: Plain, month: Time -> int, op: Op, f: Interval -> real)
    requires op.Roll? && forall r :: r in s.rows && Expired(op.cutoff, r) ==> r.id in op.ids
    requires var g := Restricted(f, Not(Aged(op.cutoff))); Sum(s.rows, g) == Sum(p.rows, g)
    ensures Sum(Drop(s.rows, Rolled(op)), f) == Sum(PlainStep(p, map[], month, op).rows, f)
  {
    var live := Not(Aged(op.cutoff));
    forall r | r in s.rows ensures !Rolled(op)(r) <==> live(r) {
      assert Expired(op.cutoff, r) ==> r.id in op.ids;
    }
    KeptAgree(s.rows, p.rows, Not(Rolled(op)), live, f, Restricted(f, live));
  }

  /** Refinement. For readings with resets, mode changes and session changes, between any
      whole roll-ups: the coalescing store and the row-per-reading store give the same value for
      every blind figure over the live rows. */
  lemma {:induction false} LiveFiguresAgree(month: Time -> int, ops: seq<Op>, f: Interval -> real)
    requires Whole(month, ops) && Blind(f)
    ensures Sum(Run(month, {}, ops).rows, f) == Sum(PlainRun(month, ops).rows, f)
    decreases |ops|
  {
    if ops != [] {
      var init := ops[..|ops| - 1];
      var s, p := Run(month, {}, init), PlainRun(month, init);
      match ops[|ops| - 1]
      case Read(r) =>
        LiveFiguresAgree(month, init, f);
        RunIsValid(month, {}, init);
        RegistersAgree(month, {}, init);
        ReadAgrees(s, p, Registers(init), month, r, f);
      case Roll(cutoff, ids) =>
        var live := Not(Aged(cutoff));
        RestrictedIsBlind(f, live);
        LiveFiguresAgree(month, init, Restricted(f, live));
        RollAgrees(s, p, month, ops[|ops| - 1], f);
    }
  }

  lemma {:induction false} RollMonthlyAgrees(month: Time -> int, ops: seq<Op>, op: Op, k: MonthKey)
    requires Whole(month, ops) && op.Roll?
    requires forall r :: r in Run(month, {}, ops).rows && Expired(op.cutoff, r) ==> r.id in op.ids
    requires Known(At(Run(month, {}, ops).monthly, k).energy) == Known(At(PlainRun(month, ops).monthly, k).energy)
    ensures Known(At(Step(Run(month, {}, ops), month, {}, op).monthly, k).energy)
         == Known(At(PlainStep(PlainRun(month, ops), Registers(ops), month, op).monthly, k).energy)
  {
    var s, p := Run(month, {}, ops), PlainRun(month, ops);
    var expired := Aged(op.cutoff);
    RestrictedIsBlind(EnergyAt(month, k), expired);
    LiveFiguresAgree(month, ops, Restricted(EnergyAt(month, k), expired));
    ExpiredTotalsAgree(s.rows, p.rows, month, op, k);
    RolledAgree(s, p, month, Registers(ops), op, k);
  }

  lemma ReadKeepsMonthly(s: Store, p: Plain, m: map<nat, (int, Time)>, month: Time -> int, r: Reading)
    ensures Record(s, r).monthly == s.monthly && PlainStep(p, m, month, Read(r)).monthly == p.monthly
  {}

  /** The monthly energies agree too, a missing row read as 0. */
  lemma {:induction false} MonthlyAgree(month: Time -> int, ops: seq<Op>, k: MonthKey)
    requires Whole(month, ops)
    ensures Known(At(Run(month, {}, ops).monthly, k).energy) == Known(At(PlainRun(month, ops).monthly, k).energy)
  {
    if ops != [] {
      var init, op := ops[..|ops| - 1], ops[|ops| - 1];
      MonthlyAgree(month, init, k);
      match op
      case Read(r) => ReadKeepsMonthly(Run(month, {}, init), PlainRun(month, init), Registers(init), month, r);
      case Roll(_, _) => RollMonthlyAgrees(month, init, op, k);
    }
  }

  lemma {:induction false} ExpiredTotalsAgree(rows: seq<Interval>, plain: seq<Interval>, month: Time -> int, op: Op,
                                              k: MonthKey)
    requires op.Roll? && forall r :: r in rows && Expired(op.cutoff, r) ==> r.id in op.ids
    requires var g := Restricted(EnergyAt(month, k), Aged(op.cutoff)); Sum(rows, g) == Sum(plain, g)
    ensures Known(Total(Keep(rows, Rolled(op)), month, k).energy)
         == Known(Total(Keep(plain, Aged(op.cutoff)), month, k).energy)
  {
    var expired := Aged(op.cutoff);
    var f := EnergyAt(month, k);
    forall r | r in rows ensures Rolled(op)(r) <==> expired(r) {
      assert Expired(op.cutoff, r) ==> r.id in op.ids;
    }
    KeptAgree(rows, plain, Rolled(op), expired, f, Restricted(f, expired));
    TotalIsSum(Keep(rows, Rolled(op)), month, k);
    TotalIsSum(Keep(plain, expired), month, k);
  }

  lemma {:induction false} RolledAgree(s: Store, p: Plain, month: Time -> int, m: map<nat, (int, Time)>, op: Op,
                                       k: MonthKey)
    requires op.Roll? && Known(At(s.monthly, k).energy) == Known(At(p.monthly, k).energy)
    requires Known(Total(Keep(s.rows, Rolled(op)), month, k).energy)
          == Known(Total(Keep(p.rows, Aged(op.cutoff)), month, k).energy)
    ensures Known(At(Step(s, month, {}, op).monthly, k).energy)
         == Known(At(PlainStep(p, m, month, op).monthly, k).energy)
  {
    MergedKnown(s.monthly, month, Keep(s.rows, Rolled(op)), k);
    MergedKnown(p.monthly, month, Keep(p.rows, Aged(op.cutoff)), k);
  }

  lemma SharesAreBlind(outlets: set<nat>, a: Time, b: Time)
    ensures Blind(ShareOf(outlets, a, b))
  {
    var f := ShareOf(outlets, a, b);
    forall r: Interval | r.energy == Some(0) ensures f(r) == 0.0 {
      ShareIdle(r, a, b);
    }
    forall r: Interval ensures f(Unnamed(r)) == f(r) {
      ShareIgnoresName(r, a, b);
    }
  }

  lemma ShareIgnoresName(r: Interval, a: Time, b: Time)
    ensures Share(Unnamed(r), a, b) == Share(r, a, b)
  {
    assert Rate(Unnamed(r)) == Rate(r) && Overlap(Unnamed(r), a, b) == Overlap(r, a, b);
  }

  /** So coalescing shows nowhere: not in any window of any outlets, not in any session's
      energy, not in what the cabinets used on their own. */
  lemma {:induction false} CoalescingInvisible(month: Time -> int, ops: seq<Op>, outlets: set<nat>, a: Time, b: Time,
                                               who: Attribution)
    requires Whole(month, ops)
    ensures EnergyBetween(Run(month, {}, ops).rows, outlets, a, b)
         == EnergyBetween(PlainRun(month, ops).rows, outlets, a, b)
    ensures Sum(Run(month, {}, ops).rows, EnergyOf(who))
         == Sum(PlainRun(month, ops).rows, EnergyOf(who))
  {
    SharesAreBlind(outlets, a, b);
    LiveFiguresAgree(month, ops, ShareOf(outlets, a, b));
    LiveFiguresAgree(month, ops, EnergyOf(who));
  }

  // ----- exactness -----

  /** No reading of the outlet after the first n steps restarted its chain. */
  ghost predicate Steady(ops: seq<Op>, o: nat, n: nat) {
    |ops| <= n ||
    (Steady(ops[..|ops| - 1], o, n) &&
     var m, op := Registers(ops[..|ops| - 1]), ops[|ops| - 1];
     !(op.Read? && op.r.outlet == o && o in m && m[o].1 < op.r.at && op.r.register < m[o].0))
  }

  /** No deletion or roll-up reached the outlet's rows that end at t or later. */
  ghost predicate CutBefore(ops: seq<Op>, simulated: set<nat>, o: nat, t: Time) {
    forall i :: 0 <= i < |ops| ==> SparesFrom(ops[i], simulated, o, t)
  }

  predicate SparesFrom(op: Op, simulated: set<nat>, o: nat, t: Time) {
    match op
    case Read(_) => true
    case Roll(cutoff, _) => cutoff <= t
    case Purge(cutoff, _) => o !in simulated || cutoff <= t
  }

  /** Rows of the outlet that all end before a window, or start after it, add nothing to it. */
  lemma {:induction false} NothingInside(rows: seq<Interval>, o: nat, a: Time, b: Time)
    requires forall i :: 0 <= i < |rows| && rows[i].outlet == o ==> rows[i].toAt <= a
    ensures EnergyBetween(rows, {o}, a, b) == 0.0
  {
    if rows != [] {
      NothingInside(rows[..|rows| - 1], o, a, b);
      var r := rows[|rows| - 1];
      if r.outlet == o {
        ShareOutside(r, a, b);
      }
    }
  }

  /** A reading changes no window that ends by the outlet's last reading. */
  lemma ReadLeavesPast(s: Store, r: Reading, o: nat, a: Time, b: Time)
    requires Valid(s) && o in s.meters && b <= s.meters[o].readAt
    ensures EnergyBetween(Record(s, r).rows, {o}, a, b) == EnergyBetween(s.rows, {o}, a, b)
  {
    RecordSum(s, r, ShareOf({o}, a, b));
    if Judge(s, r) == Extended {
      var was := s.rows[Extendable(s, r).value];
      ShareIdle(was, a, b);
      ShareIdle(was.(toAt := r.at, meterTo := r.register), a, b);
    } else if Judge(s, r) == Added && r.outlet == o {
      ShareOutside(NewRow(s.nextId, s.meters[o], r), a, b);
    }
  }

  lemma StepLeavesPast(s: Store, month: Time -> int, simulated: set<nat>, op: Op, o: nat, a: Time, b: Time)
    requires Valid(s) && o in s.meters && b <= s.meters[o].readAt
    requires SparesFrom(op, simulated, o, a)
    ensures EnergyBetween(Step(s, month, simulated, op).rows, {o}, a, b) == EnergyBetween(s.rows, {o}, a, b)
  {
    match op
    case Read(r) => ReadLeavesPast(s, r, o, a, b);
    case Roll(cutoff, _) => RollUpInvisible(s.rows, cutoff, Rolled(op), {o}, a, b);
    case Purge(_, _) => RollUpInvisible(s.rows, a, Purged(op, simulated), {o}, a, b);
  }

  lemma ReadAdvances(s: Store, r: Reading, a: Time)
    requires Valid(s) && r.outlet in s.meters && a <= s.meters[r.outlet].readAt < r.at
    requires s.meters[r.outlet].register.value <= r.register
    ensures EnergyBetween(Record(s, r).rows, {r.outlet}, a, r.at)
         == EnergyBetween(s.rows, {r.outlet}, a, s.meters[r.outlet].readAt)
            + (r.register - s.meters[r.outlet].register.value) as real
  {
    var o, t := r.outlet, s.meters[r.outlet].readAt;
    EnergySplits(s.rows, {o}, a, t, r.at);
    RowsBehind(s, o);
    NothingInside(s.rows, o, t, r.at);
    RecordSum(s, r, ShareOf({o}, a, r.at));
    ReadGains(s, r, a);
  }

  lemma ReadGains(s: Store, r: Reading, a: Time)
    requires Valid(s) && r.outlet in s.meters && a <= s.meters[r.outlet].readAt < r.at
    requires s.meters[r.outlet].register.value <= r.register
    ensures Gain(s, r, ShareOf({r.outlet}, a, r.at)) == (r.register - s.meters[r.outlet].register.value) as real
  {
    if Judge(s, r) == Added {
      ShareInside(NewRow(s.nextId, s.meters[r.outlet], r), a, r.at);
    } else {
      var was := s.rows[Extendable(s, r).value];
      ShareIdle(was, a, r.at);
      ShareIdle(was.(toAt := r.at, meterTo := r.register), a, r.at);
    }
  }

  lemma RowsBehind(s: Store, o: nat)
    requires Valid(s) && o in s.meters
    ensures forall i :: 0 <= i < |s.rows| && s.rows[i].outlet == o ==> s.rows[i].toAt <= s.meters[o].readAt
  {
    forall i | 0 <= i < |s.rows| && s.rows[i].outlet == o ensures s.rows[i].toAt <= s.meters[o].readAt {
      assert BehindMeter(s, s.rows[i]);
    }
  }

  lemma {:induction false} ExactSoFar(month: Time -> int, simulated: set<nat>, ops: seq<Op>, o: nat, n: nat)
    requires n <= |ops| && o in Registers(ops[..n])
    requires Steady(ops, o, n) && CutBefore(ops, simulated, o, Registers(ops[..n])[o].1)
    ensures o in Registers(ops) && Registers(ops[..n])[o].1 <= Registers(ops)[o].1
    ensures EnergyBetween(Run(month, simulated, ops).rows, {o}, Registers(ops[..n])[o].1, Registers(ops)[o].1)
         == (Registers(ops)[o].0 - Registers(ops[..n])[o].0) as real
  {
    var a := Registers(ops[..n])[o].1;
    if |ops| == n {
      assert ops[..n] == ops;
      NothingThere(Run(month, simulated, ops).rows, {o}, a, a);
    } else {
      var init, op := ops[..|ops| - 1], ops[|ops| - 1];
      assert init[..n] == ops[..n];
      ExactSoFar(month, simulated, init, o, n);
      var s := Run(month, simulated, init);
      RunIsValid(month, simulated, init);
      RegistersAgree(month, simulated, init);
      if op.Read? && op.r.outlet == o && Registers(init)[o].1 < op.r.at {
        ReadAdvances(s, op.r, a);
      } else {
        StepLeavesPast(s, month, simulated, op, o, a, Registers(init)[o].1);
      }
    }
  }

  /** Exactness. Take the outlet's registers after n and after q steps of any run, with no reset
      in between: the energy the store reports between those two readings is the register
      difference, however many readings, chunks and deletions happen, as long as none of them
      reached the outlet's rows in the window. */
  lemma {:induction false} Exactness(month: Time -> int, simulated: set<nat>, ops: seq<Op>, o: nat, n: nat, q: nat)
    requires n <= q <= |ops| && o in Registers(ops[..n])
    requires Steady(ops[..q], o, n) && CutBefore(ops, simulated, o, Registers(ops[..n])[o].1)
    ensures o in Registers(ops[..q])
    ensures EnergyBetween(Run(month, simulated, ops).rows, {o}, Registers(ops[..n])[o].1, Registers(ops[..q])[o].1)
         == (Registers(ops[..q])[o].0 - Registers(ops[..n])[o].0) as real
    decreases |ops|
  {
    if |ops| == q {
      assert ops[..q] == ops;
      ExactSoFar(month, simulated, ops, o, n);
    } else {
      var init, op := ops[..|ops| - 1], ops[|ops| - 1];
      assert init[..n] == ops[..n] && init[..q] == ops[..q];
      Exactness(month, simulated, init, o, n, q);
      RunIsValid(month, simulated, init);
      RegistersAgree(month, simulated, init);
      RegistersGrow(init, o, q);
      StepLeavesPast(Run(month, simulated, init), month, simulated, op, o,
                     Registers(ops[..n])[o].1, Registers(ops[..q])[o].1);
    }
  }

  lemma {:induction false} RegistersGrow(ops: seq<Op>, o: nat, q: nat)
    requires q <= |ops| && o in Registers(ops[..q])
    ensures o in Registers(ops) && Registers(ops[..q])[o].1 <= Registers(ops)[o].1
  {
    if |ops| == q {
      assert ops[..q] == ops;
    } else {
      assert ops[..|ops| - 1][..q] == ops[..q];
      RegistersGrow(ops[..|ops| - 1], o, q);
    }
  }

  /** The sum of the outlets' register differences between two moments of a run. */
  function Advanced(ops: seq<Op>, outlets: seq<nat>, n: nat, q: nat): int
    requires n <= q <= |ops|
  {
    if outlets == [] then 0
    else
      var o, before, after := outlets[|outlets| - 1], Registers(ops[..n]), Registers(ops[..q]);
      Advanced(ops, outlets[..|outlets| - 1], n, q) + if o in before && o in after then after[o].0 - before[o].0 else 0
  }

  /** One outlet's readings at both ends of the window, none of them a reset, and its rows spared. */
  ghost predicate Spanned(ops: seq<Op>, simulated: set<nat>, o: nat, n: nat, q: nat, a: Time, b: Time)
    requires n <= q <= |ops|
  {
    && o in Registers(ops[..n]) && o in Registers(ops[..q])
    && Registers(ops[..n])[o].1 == a && Registers(ops[..q])[o].1 == b
    && Steady(ops[..q], o, n) && CutBefore(ops, simulated, o, a)
  }

  lemma {:induction false} EachExact(month: Time -> int, simulated: set<nat>, ops: seq<Op>, outlets: seq<nat>,
                                     n: nat, q: nat, a: Time, b: Time)
    requires n <= q <= |ops| && forall o :: o in outlets ==> Spanned(ops, simulated, o, n, q, a, b)
    ensures SumEach(Run(month, simulated, ops).rows, outlets, a, b) == Advanced(ops, outlets, n, q) as real
  {
    if outlets != [] {
      var init, o := outlets[..|outlets| - 1], outlets[|outlets| - 1];
      EachExact(month, simulated, ops, init, n, q, a, b);
      assert Spanned(ops, simulated, o, n, q, a, b);
      Exactness(month, simulated, ops, o, n, q);
    }
  }

  /** Exactness of a marina: the energy of any outlets between two rounds of readings is the sum of
      their register differences. */
  lemma {:induction false} OutletsExact(month: Time -> int, simulated: set<nat>, ops: seq<Op>, outlets: seq<nat>,
                     n: nat, q: nat, a: Time, b: Time)
    requires n <= q <= |ops| && Distinct(outlets)
    requires forall o :: o in outlets ==> Spanned(ops, simulated, o, n, q, a, b)
    ensures EnergyBetween(Run(month, simulated, ops).rows, AsSet(outlets), a, b)
         == Advanced(ops, outlets, n, q) as real
  {
    EnergyOfEach(Run(month, simulated, ops).rows, outlets, a, b);
    EachExact(month, simulated, ops, outlets, n, q, a, b);
  }

  // ----- whose consumption it is -----

  /** A reading counts for a session when the cabinet is in smart mode with that session active; for
      the cabinet itself when it is known not to be; else for nobody. */
  datatype Whose = Session(id: nat) | Cabinet | Nobody

  predicate CountsFor(r: Reading, w: Whose) {
    match w
    case Session(n) => r.smartMode == Some(true) && r.active == Some(n)
    case Cabinet => r.smartMode == Some(false)
    case Nobody => r.smartMode == None || (r.smartMode == Some(true) && r.active == None)
  }

  /** All register steps accepted by readings that count for them. */
  function BookedFor(ops: seq<Op>, w: Whose): int {
    if ops == [] then 0
    else
      var m, op := Registers(ops[..|ops| - 1]), ops[|ops| - 1];
      BookedFor(ops[..|ops| - 1], w)
      + if op.Read? && CountsFor(op.r, w) && op.r.outlet in m && m[op.r.outlet].1 < op.r.at
           && m[op.r.outlet].0 <= op.r.register
        then op.r.register - m[op.r.outlet].0 else 0
  }

  predicate RowIsOf(r: Interval, w: Whose) {
    match w
    case Session(n) => r.who.session == Some(n)
    case Cabinet => r.who.standalone
    case Nobody => r.who.session == None && !r.who.standalone
  }

  function EnergyFor(w: Whose): Interval -> real {
    (r: Interval) => if RowIsOf(r, w) then Known(r.energy) as real else 0.0
  }

  lemma GainFor(s: Store, m: map<nat, (int, Time)>, r: Reading, w: Whose)
    requires Agrees(s, m)
    ensures Gain(s, r, EnergyFor(w)) ==
      if CountsFor(r, w) && r.outlet in m && m[r.outlet].1 < r.at && m[r.outlet].0 <= r.register
      then (r.register - m[r.outlet].0) as real else 0.0
  {
    var f := EnergyFor(w);
    match Judge(s, r)
    case Extended =>
      var was := s.rows[Extendable(s, r).value];
      assert f(was) == 0.0 && f(was.(toAt := r.at, meterTo := r.register)) == 0.0;
    case Added =>
      var x := NewRow(s.nextId, s.meters[r.outlet], r);
      CountedFor(x, r, w);
    case _ =>
  }

  lemma CountedFor(x: Interval, r: Reading, w: Whose)
    requires x.who == Attribute(r)
    ensures RowIsOf(x, w) <==> CountsFor(r, w)
  {
    if r.smartMode.Some? {
      if r.smartMode.value {
        assert r.smartMode == Some(true);
      } else {
        assert r.smartMode == Some(false);
      }
    }
  }

  /** Over any run of readings, the energy of a session's rows, of the cabinets' own and of nobody's is
      what the readings that count for them accepted. */
  lemma {:induction false} EnergyIsBooked(month: Time -> int, simulated: set<nat>, ops: seq<Op>, w: Whose)
    requires forall i :: 0 <= i < |ops| ==> ops[i].Read?
    ensures Sum(Run(month, simulated, ops).rows, EnergyFor(w)) == BookedFor(ops, w) as real
  {
    if ops != [] {
      var init, r := ops[..|ops| - 1], ops[|ops| - 1].r;
      var s := Run(month, simulated, init);
      EnergyIsBooked(month, simulated, init, w);
      RegistersAgree(month, simulated, init);
      RecordSum(s, r, EnergyFor(w));
      GainFor(s, Registers(init), r, w);
    }
  }

  ghost predicate Follows(ops: seq<Op>, o: nat, register: Time -> int) {
    forall op :: op in ops && op.Read? && op.r.outlet == o ==> op.r.register == register(op.r.at)
  }

  ghost predicate NeverFalls(register: Time -> int) {
    forall a, b :: a <= b ==> register(a) <= register(b)
  }

  /** An outlet whose readings all follow one register that never falls is never reset. */
  lemma {:induction false} MonotoneIsSteady(ops: seq<Op>, o: nat, n: nat, register: Time -> int)
    requires NeverFalls(register) && Follows(ops, o, register)
    ensures Steady(ops, o, n)
    ensures o in Registers(ops) ==> Registers(ops)[o].0 == register(Registers(ops)[o].1)
  {
    if ops != [] {
      assert forall op :: op in ops[..|ops| - 1] ==> op in ops;
      assert ops[|ops| - 1] in ops;
      MonotoneIsSteady(ops[..|ops| - 1], o, n, register);
    }
  }

  // ----- storage -----

  /** What the readings of one outlet were, by the readings alone: steps that moved the register,
      changes of attribution along the chain, restarts. */
  datatype Tally = Tally(steps: nat, changes: nat, resets: nat, who: Option<Attribution>)

  function TallyOf(ops: seq<Op>, o: nat): Tally {
    if ops == [] then Tally(0, 0, 0, None)
    else
      var t, op := TallyOf(ops[..|ops| - 1], o), ops[|ops| - 1];
      if op.Read? then NextTally(t, Registers(ops[..|ops| - 1]), o, op.r) else t
  }

  function RowsOf(rows: seq<Interval>, o: nat): nat {
    |Keep(rows, (r: Interval) => r.outlet == o)|
  }

  function NextTally(t: Tally, m: map<nat, (int, Time)>, o: nat, r: Reading): Tally {
    if r.outlet != o || o !in m || r.at <= m[o].1 then t
    else if r.register < m[o].0 then t.(resets := t.resets + 1, who := None)
    else Tally(t.steps + if m[o].0 < r.register then 1 else 0,
               t.changes + if t.who.Some? && t.who.value != Attribute(r) then 1 else 0,
               t.resets, Some(Attribute(r)))
  }

  function Room(t: Tally): nat { 2 * t.steps + t.changes + t.resets }

  /** Row i is the one the outlet's meter points at, and the count has a row in hand unless
      that row is idle. */
  ghost predicate Leads(s: Store, t: Tally, o: nat, i: nat)
    requires o in s.meters
  {
    && i < |s.rows| && s.meters[o].lastId == Some(s.rows[i].id) && t.who == Some(s.rows[i].who)
    && RowsOf(s.rows, o) <= Room(t) + if s.rows[i].energy == Some(0) then 1 else 0
  }

  ghost predicate Within(s: Store, t: Tally, o: nat) {
    if o !in s.meters then RowsOf(s.rows, o) == 0 && t == Tally(0, 0, 0, None)
    else if s.meters[o].lastId.None? then RowsOf(s.rows, o) <= Room(t) && t.who.None?
    else exists i :: Leads(s, t, o, i)
  }

  lemma {:induction false} RowsOfUpdate(rows: seq<Interval>, i: nat, x: Interval, o: nat)
    requires i < |rows| && x.outlet == rows[i].outlet
    ensures RowsOf(rows[i := x], o) == RowsOf(rows, o)
  {
    var n := |rows| - 1;
    if i < n {
      RowsOfUpdate(rows[..n], i, x, o);
      assert rows[i := x][..n] == rows[..n][i := x];
    } else {
      assert rows[i := x][..n] == rows[..n];
    }
  }

  lemma RowsOfAppend(rows: seq<Interval>, x: Interval, o: nat)
    ensures RowsOf(rows + [x], o) == RowsOf(rows, o) + if x.outlet == o then 1 else 0
  {
    assert (rows + [x])[..|rows|] == rows;
  }

  lemma ExtendWithin(s: Store, t: Tally, o: nat, r: Reading, m: map<nat, (int, Time)>)
    requires Valid(s) && Within(s, t, o) && Agrees(s, m) && Judge(s, r) == Extended
    ensures Within(Record(s, r), NextTally(t, m, o, r), o)
  {
    var u, k := Record(s, r), Extendable(s, r).value;
    RowsOfUpdate(s.rows, k, u.rows[k], o);
    if o in s.meters && s.meters[o].lastId.Some? {
      var i: nat :| Leads(s, t, o, i);
      if r.outlet == o {
        ExtendOwn(s, t, r, m, i);
      } else {
        assert Leads(u, t, o, i);
      }
    }
  }

  lemma ExtendOwn(s: Store, t: Tally, r: Reading, m: map<nat, (int, Time)>, i: nat)
    requires Valid(s) && r.outlet in s.meters && Leads(s, t, r.outlet, i) && Agrees(s, m) && Judge(s, r) == Extended
    ensures Leads(Record(s, r), NextTally(t, m, r.outlet, r), r.outlet, i)
  {
    var u, k := Record(s, r), Extendable(s, r).value;
    RowsOfUpdate(s.rows, k, u.rows[k], r.outlet);
    FindsIt(s, i);
    FindsIt(s, k);
  }

  /** An outlet whose last row is idle gets another idle row only by a change of attribution. */
  lemma AddedAfter(s: Store, r: Reading, i: nat)
    requires Valid(s) && Judge(s, r) == Added && i < |s.rows| && s.meters[r.outlet].lastId == Some(s.rows[i].id)
    ensures s.rows[i].energy == Some(0) && s.rows[i].who == Attribute(r) ==>
              s.meters[r.outlet].register.value < r.register
  {
    assert PointerHolds(s, r.outlet);
    FindsIt(s, i);
  }

  lemma AddWithin(s: Store, t: Tally, o: nat, r: Reading, m: map<nat, (int, Time)>)
    requires Valid(s) && Within(s, t, o) && Agrees(s, m) && Judge(s, r) == Added
    ensures Within(Record(s, r), NextTally(t, m, o, r), o)
  {
    var u, n := Record(s, r), |s.rows|;
    RowsOfAppend(s.rows, u.rows[n], o);
    if r.outlet == o {
      AddOwn(s, t, r, m);
    } else if o in s.meters && s.meters[o].lastId.Some? {
      var i: nat :| Leads(s, t, o, i);
      assert Leads(u, t, o, i);
    }
  }

  lemma AddOwn(s: Store, t: Tally, r: Reading, m: map<nat, (int, Time)>)
    requires Valid(s) && Within(s, t, r.outlet) && Agrees(s, m) && Judge(s, r) == Added
    ensures Leads(Record(s, r), NextTally(t, m, r.outlet, r), r.outlet, |s.rows|)
  {
    var u, n := Record(s, r), |s.rows|;
    RowsOfAppend(s.rows, u.rows[n], r.outlet);
    if s.meters[r.outlet].lastId.Some? {
      var i: nat :| Leads(s, t, r.outlet, i);
      AddedAfter(s, r, i);
    }
  }

  lemma ReadWithin(s: Store, t: Tally, o: nat, r: Reading, m: map<nat, (int, Time)>)
    requires Valid(s) && Within(s, t, o) && Agrees(s, m)
    ensures Within(Record(s, r), NextTally(t, m, o, r), o)
  {
    if Judge(s, r) == Extended {
      ExtendWithin(s, t, o, r, m);
    } else if Judge(s, r) == Added {
      AddWithin(s, t, o, r, m);
    } else {
      OtherWithin(s, t, o, r, m);
    }
  }

  /** The first reading, a restart and a reading that is not newer bring no row. */
  lemma OtherWithin(s: Store, t: Tally, o: nat, r: Reading, m: map<nat, (int, Time)>)
    requires Within(s, t, o) && Agrees(s, m) && Judge(s, r) != Extended && Judge(s, r) != Added
    ensures Within(Record(s, r), NextTally(t, m, o, r), o)
  {
    var u, v := Record(s, r), NextTally(t, m, o, r);
    assert u.rows == s.rows;
    if o == r.outlet && Judge(s, r) != NotNewer {
      assert u.meters[o].lastId.None?;
    } else {
      assert v == t && (o in u.meters <==> o in s.meters) && (o in s.meters ==> u.meters[o] == s.meters[o]);
      if o in s.meters && s.meters[o].lastId.Some? {
        var i: nat :| Leads(s, t, o, i);
        assert Leads(u, t, o, i);
      }
    }
  }

  /** Storage bound. Without retention an outlet gets at most two rows per step that moved its
      register, one per change of attribution, one per restart, and one more. */
  lemma {:induction false} StorageBound(month: Time -> int, ops: seq<Op>, o: nat)
    requires forall i :: 0 <= i < |ops| ==> ops[i].Read?
    ensures var t := TallyOf(ops, o);
      && Within(Run(month, {}, ops), t, o)
      && RowsOf(Run(month, {}, ops).rows, o) <= 2 * t.steps + t.changes + t.resets + 1
  {
    if ops != [] {
      var init := ops[..|ops| - 1];
      StorageBound(month, init, o);
      RunIsValid(month, {}, init);
      RegistersAgree(month, {}, init);
      ReadWithin(Run(month, {}, init), TallyOf(init, o), o, ops[|ops| - 1].r, Registers(init));
    }
  }
}
