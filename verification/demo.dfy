/** The demo marina's meters: a register that is the integral of a power profile, read through a
    day cache, and the history seeded from it. */
module DemoWorld {
  import opened Quantities

  /** Microseconds since the meters started, at a midnight. */
  type Instant = int

  const HOUR: int := 3_600_000_000
  const DAY_TURN: int := 12 * HOUR

  const HOURLY: seq<real> := [
    0.6, 0.55, 0.5, 0.5, 0.5, 0.55, 0.7, 0.9, 1.0, 0.9, 0.8, 0.7,
    0.7, 0.7, 0.75, 0.8, 0.9, 1.1, 1.3, 1.35, 1.3, 1.1, 0.9, 0.7]

  /** The seed's draws: whether a berth is plugged in on a demo day, its draw of an hour in
      [0, 1), its base power, and the register it starts from. */
  datatype World = World(plugged: (nat, int) -> bool, draw: (nat, int) -> real, base: nat -> real, first: nat -> real)

  ghost predicate Proper(w: World) {
    && (forall b, h :: 0.0 <= w.draw(b, h) < 1.0)
    && (forall b :: 0.0 <= w.base(b))
  }

  /** A length of time, in hours. */
  function Hours(d: int): real { d as real / HOUR as real }

  lemma HoursAdd(c: int, d: int)
    ensures Hours(c + d) == Hours(c) + Hours(d)
    ensures Hours(HOUR) == 1.0 && Hours(0) == 0.0
    ensures 0 <= d ==> 0.0 <= Hours(d)
  {}

  lemma InHour(t: Instant, hour: int)
    requires hour * HOUR <= t < (hour + 1) * HOUR
    ensures t / HOUR == hour && t % HOUR == t - hour * HOUR
  {}

  /** Boats come and go at midday. */
  function DayOf(t: Instant): int { (t - DAY_TURN) / (24 * HOUR) }

  /** What a plugged-in berth draws in an hour, to three decimals. */
  function ProfileKw(w: World, b: nat, hour: int): real {
    RoundHalfEven(ProfileWatts(w, b, hour)) as real / 1000.0
  }

  function ProfileWatts(w: World, b: nat, hour: int): real {
    w.base(b) * HOURLY[(hour + 2) % 24] * (0.7 + 0.6 * w.draw(b, hour)) * 1000.0
  }

  function PowerKw(w: World, b: nat, t: Instant): real {
    if !w.plugged(b, DayOf(t)) then 0.0 else ProfileKw(w, b, t / HOUR)
  }

  function HourKwh(w: World, b: nat, hour: int): real { PowerKw(w, b, hour * HOUR) }

  /** kWh of the first n hours. */
  function SumHours(w: World, b: nat, n: nat): real {
    if n == 0 then 0.0 else SumHours(w, b, n - 1) + HourKwh(w, b, n - 1)
  }

  /** The register before rounding. */
  function Register(w: World, b: nat, t: Instant): real {
    if t <= 0 then w.first(b) else RegisterAt(w, b, t / HOUR, t % HOUR)
  }

  /** After a number of whole hours and the rest of a started one. */
  function RegisterAt(w: World, b: nat, hours: nat, rest: int): real {
    w.first(b) + (SumHours(w, b, hours) + PartHour(w, b, hours, rest))
  }

  function PartHour(w: World, b: nat, hours: nat, rest: int): real {
    HourKwh(w, b, hours) * Hours(rest)
  }

  /** The register as read: in units of 0.0001 kWh. */
  function Reading(w: World, b: nat, t: Instant): int { Stored(Register(w, b, t)) }

  function Stored(kwh: real): (n: int)
    ensures kwh * 10000.0 - 0.5 <= n as real <= kwh * 10000.0 + 0.5
  {
    RoundHalfEven(kwh * 10000.0)
  }

  /** A demo day runs from midday to midday. */
  lemma DayIs(t: Instant, d: int)
    ensures DayOf(t) == d <==> d * (24 * HOUR) + 12 * HOUR <= t < d * (24 * HOUR) + 36 * HOUR
  {
    if d * (24 * HOUR) + 12 * HOUR <= t < d * (24 * HOUR) + 36 * HOUR {
      assert t - DAY_TURN == d * (24 * HOUR) + (t - DAY_TURN - d * (24 * HOUR));
    }
  }

  /** A berth that is not plugged in draws nothing; one that is, in hour h of day c, within half a watt
      of its base power times the profile two hours on, scaled by the draw to between 70 and 130 %. */
  lemma PowerMeans(w: World, b: nat, t: Instant, c: int, h: nat, d: int)
    requires (24 * c + h) * HOUR <= t < (24 * c + h + 1) * HOUR && h < 24
    requires d * (24 * HOUR) + 12 * HOUR <= t < d * (24 * HOUR) + 36 * HOUR
    ensures !w.plugged(b, d) ==> PowerKw(w, b, t) == 0.0
    ensures var kw := w.base(b) * HOURLY[if h < 22 then h + 2 else h - 22] * (0.7 + 0.6 * w.draw(b, 24 * c + h));
      w.plugged(b, d) ==> kw - 0.0005 <= PowerKw(w, b, t) <= kw + 0.0005
  {
    hide ProfileKw, DayOf;
    var hour := 24 * c + h;
    DayIs(t, d);
    InHour(t, hour);
    HourOfDay(c, h);
    ProfileMeans(w, b, hour, if h < 22 then h + 2 else h - 22);
  }

  lemma HourOfDay(c: int, h: nat)
    requires h < 24
    ensures (24 * c + h + 2) % 24 == if h < 22 then h + 2 else h - 22
  {}

  lemma ProfileMeans(w: World, b: nat, hour: int, i: nat)
    requires i == (hour + 2) % 24
    ensures var kw := w.base(b) * HOURLY[i] * (0.7 + 0.6 * w.draw(b, hour));
      kw - 0.0005 <= ProfileKw(w, b, hour) <= kw + 0.0005
  {
    var kw := w.base(b) * HOURLY[i] * (0.7 + 0.6 * w.draw(b, hour));
    assert ProfileWatts(w, b, hour) == kw * 1000.0;
    ToWatts(kw);
    hide ProfileWatts;
  }

  lemma ToWatts(kw: real)
    ensures kw - 0.0005 <= RoundHalfEven(kw * 1000.0) as real / 1000.0 <= kw + 0.0005
  {}

  // ----- the register is the integral -----

  /** The demo day changes on a whole hour. */
  lemma DayIsHourly(t: Instant, hour: int)
    requires hour * HOUR <= t < (hour + 1) * HOUR
    ensures DayOf(t) == (hour - 12) / 24
  {
    var d, m := (hour - 12) / 24, (hour - 12) % 24;
    var rest := m * HOUR + (t - hour * HOUR);
    assert t - DAY_TURN == d * (24 * HOUR) + rest;
    assert 0 <= rest < 24 * HOUR;
  }

  /** The power is constant on every hour. */
  lemma PowerIsHourly(w: World, b: nat, t: Instant)
    requires 0 <= t
    ensures PowerKw(w, b, t) == HourKwh(w, b, t / HOUR)
  {
    var hour := t / HOUR;
    assert hour * HOUR <= t < (hour + 1) * HOUR;
    DayIsHourly(t, hour);
    DayIsHourly(hour * HOUR, hour);
    InHour(hour * HOUR, hour);
  }

  /** F grows, over any stretch within one hour, by the power of that hour times its length. */
  ghost predicate Integrates(w: World, b: nat, f: Instant -> real) {
    forall s: Instant, t: Instant :: 0 <= s <= t <= (s / HOUR + 1) * HOUR ==>
      Grows(w, b, f, s, t)
  }

  ghost predicate Grows(w: World, b: nat, f: Instant -> real, s: Instant, t: Instant) {
    f(t) - f(s) == Used(w, b, s, t)
  }

  /** The energy of the stretch at the power of its start. */
  function Used(w: World, b: nat, s: Instant, t: Instant): real {
    PowerKw(w, b, s) * Hours(t - s)
  }

  lemma RegisterWithinHour(w: World, b: nat, s: Instant, t: Instant)
    requires 0 <= s <= t <= (s / HOUR + 1) * HOUR
    ensures Register(w, b, t) - Register(w, b, s) == Used(w, b, s, t)
  {
    var hour := s / HOUR;
    var from, length := s - hour * HOUR, t - s;
    assert hour * HOUR <= s <= t <= (hour + 1) * HOUR;
    calc {
      Register(w, b, t) - Register(w, b, s);
      { RegisterInHour(w, b, hour, s); RegisterInHour(w, b, hour, t); assert t - hour * HOUR == length + from; }
      RegisterAt(w, b, hour, length + from) - RegisterAt(w, b, hour, from);
      { Stretch(w, b, hour, from, length); }
      HourKwh(w, b, hour) * Hours(length);
      { PowerIsHourly(w, b, s); }
      Used(w, b, s, t);
    }
  }

  lemma Stretch(w: World, b: nat, hour: nat, from: int, length: int)
    ensures RegisterAt(w, b, hour, length + from) - RegisterAt(w, b, hour, from) == HourKwh(w, b, hour) * Hours(length)
  {
    hide Hours, HourKwh, SumHours;
    HoursAdd(length, from);
    Subtract(w.first(b) + SumHours(w, b, hour), HourKwh(w, b, hour), Hours(from), Hours(length));
  }

  lemma Subtract(c: real, p: real, x: real, d: real)
    ensures (c + p * (d + x)) - (c + p * x) == p * d
  {}

  /** Both ends of an hour included. */
  lemma RegisterInHour(w: World, b: nat, hour: nat, t: Instant)
    requires hour * HOUR <= t <= (hour + 1) * HOUR
    ensures Register(w, b, t) == RegisterAt(w, b, hour, t - hour * HOUR)
  {
    HoursAdd(0, 0);
    if t == (hour + 1) * HOUR {
      InHour(t, hour + 1);
      FullHour(w, b, hour);
    } else {
      InHour(t, hour);
    }
  }

  lemma FullHour(w: World, b: nat, hour: nat)
    ensures RegisterAt(w, b, hour, HOUR) == RegisterAt(w, b, hour + 1, 0)
  {
    HoursAdd(0, 0);
  }

  /** The register is the integral of the power from the start, and nothing else is: any
      function that starts where it starts and grows as the power says is the register. */
  lemma RegisterIsTheIntegral(w: World, b: nat, f: Instant -> real)
    ensures var r := t => Register(w, b, t);
      && Integrates(w, b, r) && r(0) == w.first(b)
      && (Integrates(w, b, f) && f(0) == w.first(b) ==> forall t :: 0 <= t ==> f(t) == r(t))
  {
    var r := t => Register(w, b, t);
    forall s: Instant, t: Instant | 0 <= s <= t <= (s / HOUR + 1) * HOUR ensures Grows(w, b, r, s, t) {
      RegisterWithinHour(w, b, s, t);
    }
    if Integrates(w, b, f) && f(0) == w.first(b) {
      forall t: Instant | 0 <= t ensures f(t) == r(t) {
        IntegralsAgree(w, b, f, r, t);
      }
    }
  }

  lemma {:induction false} IntegralsAgree(w: World, b: nat, f: Instant -> real, g: Instant -> real, t: Instant)
    requires Integrates(w, b, f) && Integrates(w, b, g) && f(0) == g(0) && 0 <= t
    ensures f(t) == g(t)
    decreases t
  {
    if t > 0 {
      var s := ((t - 1) / HOUR) * HOUR;
      InHour(s, (t - 1) / HOUR);
      assert 0 <= s < t <= (s / HOUR + 1) * HOUR;
      IntegralsAgree(w, b, f, g, s);
      assert Grows(w, b, f, s, t) && Grows(w, b, g, s, t);
    }
  }

  lemma ProfileKwNotNegative(w: World, b: nat, hour: int)
    requires Proper(w)
    ensures 0.0 <= ProfileKw(w, b, hour)
  {
    ProfileNotNegative((hour + 2) % 24);
    ProductNotNegative(w.base(b), HOURLY[(hour + 2) % 24], 0.7 + 0.6 * w.draw(b, hour));
    RoundNotNegative(ProfileWatts(w, b, hour));
  }

  lemma RoundNotNegative(x: real)
    requires 0.0 <= x
    ensures 0 <= RoundHalfEven(x)
  {}

  lemma ProductNotNegative(x: real, y: real, z: real)
    requires 0.0 <= x && 0.0 <= y && 0.0 <= z
    ensures 0.0 <= x * y * z * 1000.0
  {
    NotNegative(x, y);
    NotNegative(x * y, z);
  }

  lemma ProfileNotNegative(i: nat)
    requires i < |HOURLY|
    ensures 0.0 <= HOURLY[i]
  {}

  lemma NotNegative(x: real, y: real)
    requires 0.0 <= x && 0.0 <= y
    ensures 0.0 <= x * y
  {}

  lemma UsedNotNegative(w: World, b: nat, s: Instant, t: Instant)
    requires Proper(w) && s <= t
    ensures 0.0 <= Used(w, b, s, t)
  {
    ProfileKwNotNegative(w, b, s / HOUR);
    HoursAdd(0, t - s);
    NotNegative(PowerKw(w, b, s), Hours(t - s));
  }

  lemma {:induction false} RegisterNeverFalls(w: World, b: nat, s: Instant, t: Instant)
    requires Proper(w) && s <= t
    ensures Register(w, b, s) <= Register(w, b, t)
    decreases t - Max(0, s), s < 0
  {
    if s < 0 {
      if 0 < t {
        RegisterNeverFalls(w, b, 0, t);
      }
    } else {
      var next := Min((s / HOUR + 1) * HOUR, t);
      assert s < (s / HOUR + 1) * HOUR;
      RegisterWithinHour(w, b, s, next);
      UsedNotNegative(w, b, s, next);
      if next < t {
        RegisterNeverFalls(w, b, next, t);
      }
    }
  }

  /** So a stored reading never goes backwards. */
  lemma ReadingNeverFalls(w: World, b: nat)
    requires Proper(w)
    ensures forall s, t :: s <= t ==> Reading(w, b, s) <= Reading(w, b, t)
  {
    forall s: Instant, t: Instant | s <= t ensures Reading(w, b, s) <= Reading(w, b, t) {
      RegisterNeverFalls(w, b, s, t);
      RoundMonotone(Register(w, b, s) * 10000.0, Register(w, b, t) * 10000.0);
    }
  }

  // ----- the day cache -----

  ghost predicate Prefixes(w: World, b: nat, acc: seq<real>) {
    acc != [] && forall d :: 0 <= d < |acc| ==> acc[d] == SumHours(w, b, 24 * d)
  }

  class Meters {
    const w: World
    var days: map<nat, seq<real>>

    constructor (w: World)
      ensures this.w == w && Valid()
    {
      this.w := w;
      days := map[];
    }

    /** Every kept prefix is the true sum of its days, whatever calls built it. */
    ghost predicate Valid()
      reads this
    {
      forall b :: b in days ==> Prefixes(w, b, days[b])
    }

    method KwhBeforeDay(b: nat, day0: int) returns (e: real)
      requires Valid()
      modifies this
      ensures Valid()
      ensures e == if day0 <= 0 then 0.0 else SumHours(w, b, 24 * day0)
    {
      if day0 <= 0 {
        return 0.0;
      }
      var acc := if b in days then days[b] else [0.0];
      while |acc| <= day0
        invariant Prefixes(w, b, acc) && days == old(days)
        decreases day0 - |acc|
      {
        var d := |acc| - 1;
        var day := SumOf(w, b, 24 * d, 24);
        assert acc[d] + day == SumHours(w, b, 24 * (d + 1));
        acc := acc + [acc[d] + day];
      }
      assert Prefixes(w, b, acc);
      days := days[b := acc];
      e := acc[day0];
    }

    /** A register read: the cached days, the whole hours of the day, and the started hour. The
        answer does not depend on which reads came before. */
    method RegisterKwh(b: nat, t: Instant) returns (register: int)
      requires Valid()
      modifies this
      ensures Valid()
      ensures register == Reading(w, b, t)
    {
      if t <= 0 {
        return Stored(w.first(b));
      }
      var hours := t / HOUR;
      var e := KwhBeforeHour(b, hours);
      e := e + PartHour(w, b, hours, t % HOUR);
      register := Stored(w.first(b) + e);
    }

    /** The cached days and the whole hours of the started day. */
    method KwhBeforeHour(b: nat, hours: nat) returns (e: real)
      requires Valid()
      modifies this
      ensures Valid()
      ensures e == SumHours(w, b, hours)
    {
      var before := KwhBeforeDay(b, hours / 24);
      var more := SumOf(w, b, 24 * (hours / 24), hours % 24);
      assert 24 * (hours / 24) + hours % 24 == hours;
      e := before + more;
    }
  }

  method SumOf(w: World, b: nat, from: nat, count: nat) returns (e: real)
    ensures SumHours(w, b, from) + e == SumHours(w, b, from + count)
  {
    e := 0.0;
    for h := 0 to count
      invariant SumHours(w, b, from) + e == SumHours(w, b, from + h)
    {
      e := e + HourKwh(w, b, from + h);
    }
  }
}

/** The demo history: hourly register differences written straight into the tables. */
module DemoSeed {
  import opened Quantities
  import opened Metering
  import opened Figures
  import opened Retention
  import opened Chain
  import opened MeterTables
  import DemoWorld

  const HOUR: int := DemoWorld.HOUR

  /** The readings the collector would have made: one at the start, then hourly, then one now;
      mode never read, no session. */
  function Hourly(o: nat, register: Time -> int, t: Time, now: Time): seq<Reading>
    decreases now - t
  {
    if now <= t then []
    else
      var next := Min(t + HOUR, now);
      [Reading(o, register(next), next, None, None)] + Hourly(o, register, next, now)
  }

  function Replay(s: Store, readings: seq<Reading>): Store
    decreases |readings|
  {
    if readings == [] then s else Replay(Record(s, readings[0]), readings[1..])
  }

  const NOBODY := Attribution(None, false)

  /** The tables with the outlet's meter where the walk stands. */
  function Standing(s: Store, o: nat, t: Time, e: int, last: Option<nat>): Store {
    s.(meters := s.meters[o := MeterState(Some(e), t, last)])
  }

  /** The outlet's newest row, if the walk has made one: it is the table's last. */
  ghost predicate LastIs(rows: seq<Interval>, last: Option<nat>, t: Time) {
    last.Some? ==>
      rows != [] && rows[|rows| - 1].id == last.value && rows[|rows| - 1].toAt == t && rows[|rows| - 1].who == NOBODY
  }

  lemma WalkStep(s: Store, o: nat, t: Time, e: int, last: Option<nat>, next: Time, e': int)
    requires IdsGrow(s) && t < next && e <= e' && LastIs(s.rows, last, t)
    ensures Record(Standing(s, o, t, e, last), Reading(o, e', next, None, None))
         == if e' == e && last.Some? && s.rows[|s.rows| - 1].energy == Some(0)
            then var k := |s.rows| - 1;
                 Standing(s.(rows := s.rows[k := s.rows[k].(toAt := next, meterTo := e')]), o, next, e', last)
            else Standing(s.(rows := s.rows + [Interval(s.nextId, o, NOBODY, t, next, Some(e' - e), None, e, e')],
                             nextId := s.nextId + 1), o, next, e', Some(s.nextId))
  {
    if last.Some? {
      FindsIt(Standing(s, o, t, e, last), |s.rows| - 1);
    }
  }

  /** One hour of the walk: an idle run is one row, anything else a new one. */
  method WalkHour(db: MeterDb, o: nat, t: Time, e: int, last: Option<nat>, next: Time, e': int)
      returns (now: Option<nat>)
    requires IdsGrow(db.Contents()) && t < next && e <= e' && LastIs(db.rows, last, t)
    modifies db`rows, db`nextId
    ensures IdsGrow(db.Contents()) && LastIs(db.rows, now, next)
    ensures Standing(db.Contents(), o, next, e', now)
         == Record(Standing(old(db.Contents()), o, t, e, last), Reading(o, e', next, None, None))
  {
    WalkStep(db.Contents(), o, t, e, last, next, e');
    var delta := e' - e;
    if delta == 0 && last.Some? && db.rows[|db.rows| - 1].energy == Some(0) {
      var k := |db.rows| - 1;
      db.rows := db.rows[k := db.rows[k].(toAt := next, meterTo := e')];
      now := last;
    } else {
      db.rows := db.rows + [Interval(db.nextId, o, NOBODY, t, next, Some(delta), None, e, e')];
      now := Some(db.nextId);
      db.nextId := db.nextId + 1;
    }
  }

  /** The seeded history and meter state are exactly what the collector would have stored from
      the same hourly readings, so its next reading carries on one series. */
  method History(db: MeterDb, o: nat, register: Time -> int, start: Time, now: Time)
    requires o !in db.meters && IdsGrow(db.Contents()) && start <= now
    requires NeverFalls(register)
    modifies db
    ensures db.Contents()
         == Replay(Record(old(db.Contents()), Reading(o, register(start), start, None, None)),
                   Hourly(o, register, start, now))
  {
    var t, e := start, register(start);
    var last: Option<nat> := None;
    ghost var goal := Replay(Standing(db.Contents(), o, t, e, None), Hourly(o, register, start, now));
    while t < now
      invariant start <= t <= now && e == register(t) && IdsGrow(db.Contents()) && LastIs(db.rows, last, t)
      invariant db.meters == old(db.meters)
      invariant Replay(Standing(db.Contents(), o, t, e, last), Hourly(o, register, t, now)) == goal
      decreases now - t
    {
      var next := Min(t + HOUR, now);
      ReplayFirst(Standing(db.Contents(), o, t, e, last), o, register, t, now);
      last := WalkHour(db, o, t, e, last, next, register(next));
      t, e := next, register(next);
    }
    db.meters := db.meters[o := MeterState(Some(e), now, last)];
  }

  lemma ReplayFirst(s: Store, o: nat, register: Time -> int, t: Time, now: Time)
    requires t < now
    ensures var next := Min(t + HOUR, now);
      Replay(s, Hourly(o, register, t, now))
      == Replay(Record(s, Reading(o, register(next), next, None, None)), Hourly(o, register, next, now))
  {
    var next := Min(t + HOUR, now);
    var r := Reading(o, register(next), next, None, None);
    assert ([r] + Hourly(o, register, next, now))[1..] == Hourly(o, register, next, now);
  }

  // ----- one series -----

  function Reads(readings: seq<Reading>): seq<Op> {
    seq(|readings|, i requires 0 <= i < |readings| => Read(readings[i]))
  }

  lemma {:induction false} ReplayIsRun(month: Time -> int, simulated: set<nat>, ops: seq<Op>, readings: seq<Reading>)
    ensures Replay(Run(month, simulated, ops), readings) == Run(month, simulated, ops + Reads(readings))
    decreases |readings|
  {
    if readings == [] {
      assert ops + Reads(readings) == ops;
    } else {
      var first := ops + [Read(readings[0])];
      assert first[..|ops|] == ops;
      assert ops + Reads(readings) == first + Reads(readings[1..]);
      ReplayIsRun(month, simulated, first, readings[1..]);
    }
  }

  function Seeded(o: nat, register: Time -> int, start: Time, now: Time): seq<Reading> {
    [Reading(o, register(start), start, None, None)] + Hourly(o, register, start, now)
  }

  lemma {:induction false} HourlyFollows(o: nat, register: Time -> int, t: Time, now: Time)
    ensures forall r :: r in Hourly(o, register, t, now) ==> r.register == register(r.at)
    decreases now - t
  {
    if t < now {
      HourlyFollows(o, register, Min(t + HOUR, now), now);
    }
  }

  /** The run: anything before, the seeded readings, anything after. */
  function Series(before: seq<Op>, o: nat, register: Time -> int, start: Time, now: Time, later: seq<Op>): seq<Op> {
    before + Reads(Seeded(o, register, start, now)) + later
  }

  lemma SeriesFollows(before: seq<Op>, o: nat, register: Time -> int, start: Time, now: Time, later: seq<Op>)
    requires Follows(before, o, register) && Follows(later, o, register)
    ensures Follows(Series(before, o, register, start, now, later), o, register)
  {
    HourlyFollows(o, register, start, now);
    var seeded := Reads(Seeded(o, register, start, now));
    forall op | op in seeded ensures op.Read? && op.r.register == register(op.r.at) {
      var i :| 0 <= i < |seeded| && seeded[i] == op;
      assert op.r in Seeded(o, register, start, now);
    }
  }

  lemma PrefixFollows(ops: seq<Op>, n: nat, o: nat, register: Time -> int)
    requires n <= |ops| && Follows(ops, o, register)
    ensures Follows(ops[..n], o, register)
  {
    assert forall op :: op in ops[..n] ==> op in ops;
  }

  /** An outlet seeded and then read live off one register that never falls: between any two
      accepted readings, seeded or live, the energy is the register's difference, whatever
      else the tables went through. */
  lemma {:induction false} OneSeries(month: Time -> int, simulated: set<nat>, o: nat, register: Time -> int,
                  before: seq<Op>, start: Time, now: Time, later: seq<Op>, n: nat, q: nat)
    requires NeverFalls(register) && Follows(before, o, register) && Follows(later, o, register)
    requires n <= q <= |Series(before, o, register, start, now, later)|
    requires var ops := Series(before, o, register, start, now, later);
      o in Registers(ops[..n]) && CutBefore(ops, simulated, o, Registers(ops[..n])[o].1)
    ensures var ops := Series(before, o, register, start, now, later);
      && o in Registers(ops[..q])
      && var from, till := Registers(ops[..n])[o].1, Registers(ops[..q])[o].1;
         EnergyBetween(Run(month, simulated, ops).rows, {o}, from, till) == (register(till) - register(from)) as real
  {
    var ops := Series(before, o, register, start, now, later);
    SeriesFollows(before, o, register, start, now, later);
    PrefixFollows(ops, n, o, register);
    PrefixFollows(ops, q, o, register);
    MonotoneIsSteady(ops[..q], o, n, register);
    MonotoneIsSteady(ops[..n], o, n, register);
    Exactness(month, simulated, ops, o, n, q);
  }

  /** The demo register is such a register. */
  lemma DemoNeverFalls(w: DemoWorld.World, b: nat)
    requires DemoWorld.Proper(w)
    ensures NeverFalls(t => DemoWorld.Reading(w, b, t))
  {
    DemoWorld.ReadingNeverFalls(w, b);
  }
}
