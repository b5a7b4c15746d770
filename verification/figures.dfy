/** Figures computed from interval rows: sums, and the energy inside a time window. */
module Figures {
  import opened Quantities
  import opened Metering

  function Sum(rows: seq<Interval>, f: Interval -> real): real {
    if rows == [] then 0.0 else Sum(rows[..|rows| - 1], f) + f(rows[|rows| - 1])
  }

  lemma {:induction false} SumAppend(rows: seq<Interval>, x: Interval, f: Interval -> real)
    ensures Sum(rows + [x], f) == Sum(rows, f) + f(x)
  {
    assert (rows + [x])[..|rows|] == rows;
  }

  lemma {:induction false} SumUpdate(rows: seq<Interval>, k: nat, x: Interval, f: Interval -> real)
    requires k < |rows|
    ensures Sum(rows[k := x], f) == Sum(rows, f) - f(rows[k]) + f(x)
  {
    var n := |rows| - 1;
    if k < n {
      SumUpdate(rows[..n], k, x, f);
      assert rows[k := x][..n] == rows[..n][k := x];
    } else {
      assert rows[k := x][..n] == rows[..n];
    }
  }

  lemma {:induction false} SumSame(rows: seq<Interval>, f: Interval -> real, g: Interval -> real)
    requires forall i :: 0 <= i < |rows| ==> f(rows[i]) == g(rows[i])
    ensures Sum(rows, f) == Sum(rows, g)
  {
    if rows != [] {
      SumSame(rows[..|rows| - 1], f, g);
    }
  }

  // ----- energy inside a window -----

  /** How long the row overlaps [a, b). */
  function Overlap(r: Interval, a: Time, b: Time): int {
    Max(0, Min(r.toAt, b) - Max(r.fromAt, a))
  }

  /** The row's mean power, in units per instant. */
  function Rate(r: Interval): real {
    if r.energy.None? || r.toAt <= r.fromAt then 0.0
    else r.energy.value as real / (r.toAt - r.fromAt) as real
  }

  /** What the row gives to the window [a, b): its energy spread evenly over its own span. */
  function Share(r: Interval, a: Time, b: Time): real {
    Rate(r) * Overlap(r, a, b) as real
  }

  function ShareOf(outlets: set<nat>, a: Time, b: Time): Interval -> real {
    (r: Interval) => if r.outlet in outlets then Share(r, a, b) else 0.0
  }

  /** kWh (in units) of the outlets in [a, b). */
  function EnergyBetween(rows: seq<Interval>, outlets: set<nat>, a: Time, b: Time): real {
    Sum(rows, ShareOf(outlets, a, b))
  }

  lemma ShareOutside(r: Interval, a: Time, b: Time)
    requires r.toAt <= a || b <= r.fromAt || b <= a
    ensures Share(r, a, b) == 0.0
  {}

  lemma ShareInside(r: Interval, a: Time, b: Time)
    requires a <= r.fromAt < r.toAt <= b && r.energy.Some?
    ensures Share(r, a, b) == r.energy.value as real
  {}

  lemma ShareIdle(r: Interval, a: Time, b: Time)
    requires r.energy == Some(0)
    ensures Share(r, a, b) == 0.0
  {}

  /** Cutting a window anywhere splits a row's share without loss. */
  lemma ShareSplits(r: Interval, a: Time, b: Time, c: Time)
    requires a <= b <= c
    ensures Share(r, a, c) == Share(r, a, b) + Share(r, b, c)
  {
    var x, y := Overlap(r, a, b), Overlap(r, b, c);
    assert Overlap(r, a, c) == x + y;
    Distributes(Rate(r), x as real, y as real);
  }

  lemma Distributes(k: real, x: real, y: real)
    ensures k * (x + y) == k * x + k * y
  {}

  /** `energy_between` is additive over adjacent windows, for any cut point. */
  lemma {:induction false} EnergySplits(rows: seq<Interval>, outlets: set<nat>, a: Time, b: Time, c: Time)
    requires a <= b <= c
    ensures EnergyBetween(rows, outlets, a, c)
         == EnergyBetween(rows, outlets, a, b) + EnergyBetween(rows, outlets, b, c)
  {
    if rows != [] {
      EnergySplits(rows[..|rows| - 1], outlets, a, b, c);
      ShareSplits(rows[|rows| - 1], a, b, c);
    }
  }

  /** Inside its span a row gives each stretch the same part of its energy as of its time. */
  lemma ShareIsProRata(r: Interval, a: Time, b: Time)
    requires r.fromAt <= a <= b <= r.toAt && r.fromAt < r.toAt && r.energy.Some?
    ensures Share(r, a, b) * (r.toAt - r.fromAt) as real == r.energy.value as real * (b - a) as real
  {
    Scaled(r.energy.value as real, (r.toAt - r.fromAt) as real, (b - a) as real);
  }

  lemma Scaled(e: real, whole: real, part: real)
    requires whole != 0.0
    ensures e / whole * part * whole == e * part
  {
    var rate := e / whole;
    assert rate * whole == e;
    assert rate * part * whole == rate * whole * part;
  }

  /** The energy of two sets of outlets is the sum of theirs. */
  lemma {:induction false} EnergyOfBoth(rows: seq<Interval>, one: set<nat>, other: set<nat>, a: Time, b: Time)
    requires one !! other
    ensures EnergyBetween(rows, one + other, a, b) == EnergyBetween(rows, one, a, b) + EnergyBetween(rows, other, a, b)
  {
    if rows != [] {
      EnergyOfBoth(rows[..|rows| - 1], one, other, a, b);
    }
  }

  function SumEach(rows: seq<Interval>, outlets: seq<nat>, a: Time, b: Time): real {
    if outlets == [] then 0.0
    else SumEach(rows, outlets[..|outlets| - 1], a, b) + EnergyBetween(rows, {outlets[|outlets| - 1]}, a, b)
  }

  function AsSet(outlets: seq<nat>): set<nat> { set o | o in outlets }

  ghost predicate Distinct(outlets: seq<nat>) {
    forall i, j :: 0 <= i < j < |outlets| ==> outlets[i] != outlets[j]
  }

  /** So it is the sum of each outlet's. */
  lemma {:induction false} EnergyOfEach(rows: seq<Interval>, outlets: seq<nat>, a: Time, b: Time)
    requires Distinct(outlets)
    ensures EnergyBetween(rows, AsSet(outlets), a, b) == SumEach(rows, outlets, a, b)
  {
    if outlets == [] {
      NothingThere(rows, AsSet(outlets), a, b);
    } else {
      var init, last := outlets[..|outlets| - 1], outlets[|outlets| - 1];
      EnergyOfEach(rows, init, a, b);
      assert AsSet(outlets) == AsSet(init) + {last} by {
        assert outlets == init + [last];
      }
      EnergyOfBoth(rows, AsSet(init), {last}, a, b);
    }
  }

  /** Computed row by row, as the query does: rows that miss the window, have no figure or no
      span are skipped; a row inside counts whole; a straddling one pro rata. */
  method ComputeEnergyBetween(rows: seq<Interval>, outlets: set<nat>, a: Time, b: Time) returns (total: real)
    ensures total == EnergyBetween(rows, outlets, a, b)
  {
    if outlets == {} || b <= a {
      NothingThere(rows, outlets, a, b);
      return 0.0;
    }
    total := 0.0;
    for i := 0 to |rows|
      invariant total == EnergyBetween(rows[..i], outlets, a, b)
    {
      var r := rows[i];
      assert rows[..i + 1][..i] == rows[..i];
      if r.outlet !in outlets || r.toAt <= a || b <= r.fromAt || r.energy.None? {
        continue;
      }
      var span := r.toAt - r.fromAt;
      if span <= 0 {
        continue;
      }
      var inside := Min(r.toAt, b) - Max(r.fromAt, a);
      if inside < span {
        ProRata(r.energy.value as real, inside as real, span as real);
        total := total + r.energy.value as real * (inside as real / span as real);
      } else {
        total := total + r.energy.value as real;
      }
    }
    assert rows[..|rows|] == rows;
  }

  lemma ProRata(e: real, part: real, whole: real)
    requires whole != 0.0
    ensures e * (part / whole) == (e / whole) * part
  {
    var q := part / whole;
    assert part == q * whole;
    var p := e / whole;
    assert e == p * whole;
    assert p * part == p * (q * whole) == (p * whole) * q;
  }

  lemma {:induction false} NothingThere(rows: seq<Interval>, outlets: set<nat>, a: Time, b: Time)
    requires outlets == {} || b <= a
    ensures EnergyBetween(rows, outlets, a, b) == 0.0
  {
    if rows != [] {
      NothingThere(rows[..|rows| - 1], outlets, a, b);
    }
  }
}
