/** Register readings of many outlets, kept as chains of consumption intervals.

    Energy is counted in units of 0.0001 kWh, the scale of the stored columns; times are
    naive UTC instants. A `Store` is what the tables hold, `Record` what one reading does to it. */
module Metering {
  import opened Quantities

  type Time = int

  /** Whose consumption an interval is: an ERP session's, the cabinet's own, or nobody's. */
  datatype Attribution = Attribution(session: Option<nat>, standalone: bool)

  datatype Interval = Interval(id: nat, outlet: nat, who: Attribution, fromAt: Time, toAt: Time,
                               energy: Option<int>, water: Option<int>, meterFrom: int, meterTo: int)

  datatype MeterState = MeterState(register: Option<int>, readAt: Time, lastId: Option<nat>)

  datatype MonthKey = MonthKey(outlet: nat, month: int, standalone: bool)

  datatype Totals = Totals(energy: Option<int>, water: Option<int>, count: nat)

  datatype Store = Store(rows: seq<Interval>, nextId: nat, meters: map<nat, MeterState>,
                         monthly: map<MonthKey, Totals>)

  /** One register reading, with what the collector knows of the outlet at that moment:
      the cabinet's mode (None: never read) and the newest session active on the outlet. */
  datatype Reading = Reading(outlet: nat, register: int, at: Time, smartMode: Option<bool>, active: Option<nat>)

  datatype Verdict = Seeded | NotNewer | Reset | Extended | Added

  const EMPTY := Store([], 0, map[], map[])

  function Attribute(r: Reading): Attribution {
    Attribution(if r.smartMode == Some(true) then r.active else None, r.smartMode == Some(false))
  }

  /** Primary-key lookup. */
  function Find(rows: seq<Interval>, id: nat): (k: Option<nat>)
    ensures k.Some? ==> k.value < |rows| && rows[k.value].id == id
    ensures k.None? ==> forall i :: 0 <= i < |rows| ==> rows[i].id != id
  {
    if rows == [] then None
    else if rows[|rows| - 1].id == id then Some(|rows| - 1)
    else Find(rows[..|rows| - 1], id)
  }

  /** The row a zero difference may extend, if there is one. */
  function Extendable(s: Store, r: Reading): (k: Option<nat>)
    requires r.outlet in s.meters
    ensures k.Some? ==> k.value < |s.rows| && s.meters[r.outlet].lastId == Some(s.rows[k.value].id)
    ensures k.Some? ==> s.rows[k.value].energy == Some(0) && s.rows[k.value].who == Attribute(r)
    ensures k.Some? ==> s.rows[k.value].toAt == s.meters[r.outlet].readAt
  {
    var m := s.meters[r.outlet];
    if m.lastId.None? then None
    else
      var k := Find(s.rows, m.lastId.value);
      if k.Some? && s.rows[k.value].energy == Some(0) && s.rows[k.value].who == Attribute(r)
         && s.rows[k.value].toAt == m.readAt then k else None
  }

  function Judge(s: Store, r: Reading): Verdict {
    if r.outlet !in s.meters then Seeded
    else
      var m := s.meters[r.outlet];
      if r.at <= m.readAt then NotNewer
      else if m.register.None? || r.register < m.register.value then Reset
      else if r.register == m.register.value && Extendable(s, r).Some? then Extended
      else Added
  }

  /** The row an accepted, non-extending reading adds. */
  function NewRow(id: nat, m: MeterState, r: Reading): Interval
    requires m.register.Some?
  {
    Interval(id, r.outlet, Attribute(r), m.readAt, r.at, Some(r.register - m.register.value), None,
             m.register.value, r.register)
  }

  function Record(s: Store, r: Reading): Store {
    match Judge(s, r)
    case NotNewer => s
    case Seeded => s.(meters := s.meters[r.outlet := MeterState(Some(r.register), r.at, None)])
    case Reset => s.(meters := s.meters[r.outlet := MeterState(Some(r.register), r.at, None)])
    case Extended =>
      var k := Extendable(s, r).value;
      s.(rows := s.rows[k := s.rows[k].(toAt := r.at, meterTo := r.register)],
         meters := s.meters[r.outlet := s.meters[r.outlet].(register := Some(r.register), readAt := r.at)])
    case Added =>
      s.(rows := s.rows + [NewRow(s.nextId, s.meters[r.outlet], r)], nextId := s.nextId + 1,
         meters := s.meters[r.outlet := MeterState(Some(r.register), r.at, Some(s.nextId))])
  }

  // ----- what every reading keeps -----

  /** Ids grow with the row order and are never given twice. */
  ghost predicate IdsGrow(s: Store) {
    && (forall i, j :: 0 <= i < j < |s.rows| ==> s.rows[i].id < s.rows[j].id)
    && (forall i :: 0 <= i < |s.rows| ==> s.rows[i].id < s.nextId)
  }

  /** A stored row: forward in time, its energy the non-negative register difference,
      never a session and standalone at once. */
  ghost predicate Sound(r: Interval) {
    && r.fromAt < r.toAt
    && r.meterFrom <= r.meterTo && r.energy == Some(r.meterTo - r.meterFrom)
    && !(r.who.standalone && r.who.session.Some?)
  }

  /** No row runs past its outlet's last reading, and the one that ends there is the row the
      meter state points at. */
  ghost predicate BehindMeter(s: Store, r: Interval) {
    && r.outlet in s.meters
    && r.toAt <= s.meters[r.outlet].readAt
    && (r.toAt == s.meters[r.outlet].readAt ==>
          s.meters[r.outlet].lastId == Some(r.id) && s.meters[r.outlet].register == Some(r.meterTo))
  }

  /** A meter's pointer is an id already given; the row may be gone, but it is never another
      outlet's and never one that does not end at the last reading. */
  ghost predicate PointerHolds(s: Store, o: nat)
    requires o in s.meters
  {
    s.meters[o].register.Some? &&
    (s.meters[o].lastId.Some? ==>
       && s.meters[o].lastId.value < s.nextId
       && forall i :: 0 <= i < |s.rows| && s.rows[i].id == s.meters[o].lastId.value ==>
            s.rows[i].outlet == o && s.rows[i].toAt == s.meters[o].readAt)
  }

  /** Two rows of one outlet never overlap, and two that touch are not both idle under the
      same attribution: an idle stretch is one row. */
  ghost predicate Apart(a: Interval, b: Interval) {
    a.outlet == b.outlet ==>
      && a.toAt <= b.fromAt
      && (a.toAt == b.fromAt && a.who == b.who ==> !(a.energy == Some(0) && b.energy == Some(0)))
  }

  ghost predicate Valid(s: Store) {
    && IdsGrow(s)
    && (forall i :: 0 <= i < |s.rows| ==> Sound(s.rows[i]))
    && (forall i :: 0 <= i < |s.rows| ==> BehindMeter(s, s.rows[i]))
    && (forall o :: o in s.meters ==> PointerHolds(s, o))
    && (forall i, j :: 0 <= i < j < |s.rows| ==> Apart(s.rows[i], s.rows[j]))
  }

  lemma {:induction false} RecordKeepsValid(s: Store, r: Reading)
    requires Valid(s)
    ensures Valid(Record(s, r))
  {
    var t := Record(s, r);
    match Judge(s, r)
    case NotNewer =>
    case Seeded =>
    case Reset => RestartKeepsValid(s, r);
    case Extended => ExtendKeepsValid(s, r);
    case Added => AddKeepsValid(s, r);
  }

  lemma RestartKeepsValid(s: Store, r: Reading)
    requires Valid(s) && Judge(s, r) == Reset
    ensures Valid(Record(s, r))
  {
    var t := Record(s, r);
    forall i | 0 <= i < |t.rows| ensures BehindMeter(t, t.rows[i]) {
      assert BehindMeter(s, s.rows[i]);
    }
  }

  lemma ExtendKeepsRows(s: Store, r: Reading, i: nat)
    requires Valid(s) && Judge(s, r) == Extended && i < |s.rows|
    ensures Sound(Record(s, r).rows[i]) && BehindMeter(Record(s, r), Record(s, r).rows[i])
  {
    var k := Extendable(s, r).value;
    assert PointerHolds(s, r.outlet);
    assert Sound(s.rows[i]) && BehindMeter(s, s.rows[i]);
    assert Sound(s.rows[k]) && BehindMeter(s, s.rows[k]);
  }

  lemma ExtendKeepsApart(s: Store, r: Reading, i: nat, j: nat)
    requires Valid(s) && Judge(s, r) == Extended && i < j < |s.rows|
    ensures Apart(Record(s, r).rows[i], Record(s, r).rows[j])
  {
    assert PointerHolds(s, r.outlet);
    assert Apart(s.rows[i], s.rows[j]) && BehindMeter(s, s.rows[j]) && Sound(s.rows[j]);
  }

  lemma ExtendKeepsValid(s: Store, r: Reading)
    requires Valid(s) && Judge(s, r) == Extended
    ensures Valid(Record(s, r))
  {
    var t := Record(s, r);
    forall i | 0 <= i < |t.rows| ensures Sound(t.rows[i]) && BehindMeter(t, t.rows[i]) {
      ExtendKeepsRows(s, r, i);
    }
    forall o | o in t.meters ensures PointerHolds(t, o) {
      assert PointerHolds(s, o);
    }
    forall i, j | 0 <= i < j < |t.rows| ensures Apart(t.rows[i], t.rows[j]) {
      ExtendKeepsApart(s, r, i, j);
    }
  }

  lemma AddKeepsRow(s: Store, r: Reading, i: nat)
    requires Valid(s) && Judge(s, r) == Added && i < |s.rows|
    ensures BehindMeter(Record(s, r), s.rows[i]) && Apart(s.rows[i], Record(s, r).rows[|s.rows|])
  {
    assert BehindMeter(s, s.rows[i]);
    if s.rows[i].outlet == r.outlet && s.rows[i].toAt == s.meters[r.outlet].readAt {
      FindsIt(s, i);
    }
  }

  lemma AddKeepsPointer(s: Store, r: Reading, o: nat)
    requires Valid(s) && Judge(s, r) == Added && o in Record(s, r).meters
    ensures PointerHolds(Record(s, r), o)
  {
    if o != r.outlet {
      assert PointerHolds(s, o);
    }
  }

  lemma AddKeepsValid(s: Store, r: Reading)
    requires Valid(s) && Judge(s, r) == Added
    ensures Valid(Record(s, r))
  {
    var t := Record(s, r);
    forall i | 0 <= i < |s.rows| ensures BehindMeter(t, s.rows[i]) && Apart(s.rows[i], t.rows[|s.rows|]) {
      AddKeepsRow(s, r, i);
    }
    forall o | o in t.meters ensures PointerHolds(t, o) {
      AddKeepsPointer(s, r, o);
    }
    assert Sound(t.rows[|s.rows|]);
  }

  predicate IsExtendable(s: Store, r: Reading, row: Interval)
    requires r.outlet in s.meters
  {
    && s.meters[r.outlet].lastId == Some(row.id) && row.toAt == s.meters[r.outlet].readAt
    && row.energy == Some(0) && row.who == Attribute(r)
  }

  /** A row is extended exactly when some stored row may be: the one the meter points at, idle, under
      the reading's attribution, ending at the last reading. */
  lemma ExtendableIsExact(s: Store, r: Reading)
    requires IdsGrow(s) && r.outlet in s.meters
    ensures Extendable(s, r).Some? <==> exists i :: 0 <= i < |s.rows| && IsExtendable(s, r, s.rows[i])
    ensures Extendable(s, r).Some? ==> IsExtendable(s, r, s.rows[Extendable(s, r).value])
  {
    if i :| 0 <= i < |s.rows| && IsExtendable(s, r, s.rows[i]) {
      FindsIt(s, i);
    }
  }

  /** With ids distinct, looking a row up by its id finds that row. */
  lemma FindsIt(s: Store, i: nat)
    requires IdsGrow(s) && i < |s.rows|
    ensures Find(s.rows, s.rows[i].id) == Some(i)
  {}
}
