/** One cabinet session payload, parsed and applied to the ERP's session row: the one path that
    the webhook and the pull share. Figures are kept in the units of their columns
    (0.0001 kWh, 0.001 L, 0.01 min), times in microseconds. */
module Sessions {
  import opened Quantities

  type Time = int

  // ----- the payload -----

  datatype Socket = NoSocket | Named(name: string) | NotText
  datatype Number = Null | Num(value: real) | NotNumber
  datatype Medium = Electricity | Water | OtherMedium(word: string)
  datatype Source = Register | IntegratedLegacy | NotMeasured | OtherSource(word: string)

  datatype Key =
    | SessionId | CabinetId | SocketId | SessionType | CustomerId | StatusKey | ActivatedAt | DurationMinutes
    | EnergyKwh | WaterLiters | MeterEnergyStart | MeterEnergyEnd | MeterWaterStart | MeterWaterEnd
    | ConsumptionSource | PowerKwCurrent
    | ErpRef
    | EstimatedCost | Cost | Price | Amount
    | OtherKey(name: string)

  const CONTRACT_KEYS: set<Key> := {
    SessionId, CabinetId, SocketId, SessionType, CustomerId, StatusKey, ActivatedAt, DurationMinutes,
    EnergyKwh, WaterLiters, MeterEnergyStart, MeterEnergyEnd, MeterWaterStart, MeterWaterEnd,
    ConsumptionSource, PowerKwCurrent}
  const PRICE_KEYS: set<Key> := {EstimatedCost, Cost, Price, Amount}

  /** What the cabinet sent: the keys present and, for each contract key, its value. */
  datatype Payload = Payload(
    keys: set<Key>, sessionId: int, cabinetId: Option<string>, socket: Socket, medium: Medium,
    customerId: Option<string>, erpRef: Option<string>, status: string, activatedAt: Option<Time>,
    duration: Number, energy: Number, water: Number, energyStart: Number, energyEnd: Number,
    waterStart: Number, waterEnd: Number, power: Number, source: Option<Source>)

  datatype Finding =
    | PriceFieldDropped(count: nat) | UnknownKeys(extra: set<Key>) | CrossMediumFigure | UnknownSource
    | FigureNull | MeasurementMissing | ApproximateFigure | RecomputeImpossible | RecomputeMismatch

  datatype Parsed = Parsed(
    sessionId: int, cabinet: Option<string>, outlet: Option<string>, medium: Medium, customer: Option<string>,
    status: string, activatedAt: Option<Time>, duration: Option<real>, consumption: Option<real>,
    meterStart: Option<real>, meterEnd: Option<real>, source: Option<Source>, review: bool,
    findings: seq<Finding>, erpRef: Option<string>)

  /** Registers that differ from the figure by no more than this are rounding. */
  const TOLERANCE := 0.001

  predicate Known(s: Option<Source>) { s.Some? && !s.value.OtherSource? }

  /** Q1 to Q4, V1 or V2; the pattern's end anchor also lets a final newline through. */
  predicate OutletName(s: string) {
    && (|s| == 2 || (|s| == 3 && s[2] == '\n'))
    && ((s[0] == 'Q' && '1' <= s[1] <= '4') || (s[0] == 'V' && '1' <= s[1] <= '2'))
  }

  function Read(n: Number): Option<real> { if n.Num? then Some(n.value) else None }

  /** The payload breaks the contract: it cannot be interpreted at all. */
  predicate Broken(p: Payload) {
    var required := CONTRACT_KEYS - if ErpRef in p.keys then {CustomerId} else {};
    || !(required <= p.keys - PRICE_KEYS)
    || p.medium.OtherMedium?
    || p.socket.NotText?
    || (p.socket.Named? && (!OutletName(p.socket.name)
                            || p.socket.name[0] != if p.medium.Electricity? then 'Q' else 'V'))
    || (if p.medium.Electricity? then p.energy.NotNumber? || p.energyStart.NotNumber? || p.energyEnd.NotNumber?
        else p.water.NotNumber? || p.waterStart.NotNumber? || p.waterEnd.NotNumber?)
    || p.duration.NotNumber? || p.power.NotNumber?
  }

  function Figure(p: Payload): Option<real> { Read(if p.medium.Electricity? then p.energy else p.water) }
  function MeterStart(p: Payload): Option<real> { Read(if p.medium.Electricity? then p.energyStart else p.waterStart) }
  function MeterEnd(p: Payload): Option<real> { Read(if p.medium.Electricity? then p.energyEnd else p.waterEnd) }

  function Abs(x: real): real { if x < 0.0 then -x else x }

  /** Both registers are there and agree with the figure. */
  predicate Recomputes(figure: real, first: Option<real>, last: Option<real>) {
    first.Some? && last.Some? && Abs(last.value - first.value - figure) <= TOLERANCE
  }

  /** An ended session with no figure, or with one that no register stands behind. */
  predicate NoRegisterFigure(p: Payload) {
    p.status == "ended" && (Figure(p).None? || p.source == Some(NotMeasured) || p.source == Some(IntegratedLegacy))
  }

  /** A figure its registers do not confirm. */
  predicate Unconfirmed(p: Payload) {
    Figure(p).Some? && !Recomputes(Figure(p).value, MeterStart(p), MeterEnd(p))
  }

  /** Why a parsed payload goes to a person. */
  predicate NeedsReview(p: Payload) { NoRegisterFigure(p) || Unconfirmed(p) }

  function Note(findings: seq<Finding>, found: bool, f: Finding): (r: seq<Finding>)
    ensures forall g :: g in r <==> g in findings || (found && g == f)
  {
    if found then findings + [f] else findings
  }

  function Prices(p: Payload): set<Key> { PRICE_KEYS * p.keys }

  /** Keys that the contract does not know. */
  function Extra(p: Payload): set<Key> { p.keys - PRICE_KEYS - CONTRACT_KEYS - {ErpRef} }

  function OtherFigure(p: Payload): Number { if p.medium.Electricity? then p.water else p.energy }

  function ShapeFindings(p: Payload): seq<Finding> {
    var f := Note([], Prices(p) != {}, PriceFieldDropped(|Prices(p)|));
    var f := Note(f, Extra(p) != {}, UnknownKeys(Extra(p)));
    var f := Note(f, OtherFigure(p) != Null, CrossMediumFigure);
    Note(f, p.source.Some? && !Known(p.source), UnknownSource)
  }

  function EndFindings(p: Payload, f: seq<Finding>): seq<Finding> {
    var f := Note(f, p.status == "ended" && Figure(p).None?, FigureNull);
    var f := Note(f, p.status == "ended" && p.source == Some(NotMeasured), MeasurementMissing);
    Note(f, p.status == "ended" && p.source == Some(IntegratedLegacy), ApproximateFigure)
  }

  function RegisterFindings(p: Payload, f: seq<Finding>): seq<Finding> {
    var registers := MeterStart(p).Some? && MeterEnd(p).Some?;
    var f := Note(f, Figure(p).Some? && !registers, RecomputeImpossible);
    Note(f, Figure(p).Some? && registers && !Recomputes(Figure(p).value, MeterStart(p), MeterEnd(p)), RecomputeMismatch)
  }

  function Findings(p: Payload): seq<Finding> {
    RegisterFindings(p, EndFindings(p, ShapeFindings(p)))
  }

  /** Parse, or nothing for a payload that breaks the contract. */
  function Parse(p: Payload): Option<Parsed> {
    if Broken(p) then None
    else Some(Parsed(p.sessionId, p.cabinetId, if p.socket.Named? then Some(p.socket.name) else None,
                     p.medium,
                     Customer(p), p.status, p.activatedAt, Read(p.duration), Figure(p), MeterStart(p), MeterEnd(p),
                     p.source, NeedsReview(p), Findings(p), Reference(p)))
  }

  /** The parse itself: price fields dropped first, the review flag raised along the way. */
  method ParseSession(p: Payload) returns (r: Option<Parsed>)
    ensures r == Parse(p)
  {
    if Broken(p) {
      return None;
    }
    var findings := NoteShape(p);
    var review, unconfirmed: bool;
    review, findings := NoteEnd(p, findings);
    unconfirmed, findings := NoteRegisters(p, findings);
    r := Some(Parsed(p.sessionId, p.cabinetId, if p.socket.Named? then Some(p.socket.name) else None, p.medium,
                     Customer(p), p.status, p.activatedAt, Read(p.duration), Figure(p), MeterStart(p), MeterEnd(p),
                     p.source, review || unconfirmed, findings, Reference(p)));
  }

  method NoteEnd(p: Payload, f: seq<Finding>) returns (review: bool, findings: seq<Finding>)
    ensures findings == EndFindings(p, f)
    ensures review <==> NoRegisterFigure(p)
  {
    review, findings := false, f;
    if p.status == "ended" {
      if Figure(p).None? {
        review, findings := true, findings + [FigureNull];
      }
      if p.source == Some(NotMeasured) {
        review, findings := true, findings + [MeasurementMissing];
      }
      if p.source == Some(IntegratedLegacy) {
        review, findings := true, findings + [ApproximateFigure];
      }
    }
  }

  method NoteRegisters(p: Payload, f: seq<Finding>) returns (review: bool, findings: seq<Finding>)
    ensures findings == RegisterFindings(p, f)
    ensures review <==> Unconfirmed(p)
  {
    review, findings := false, f;
    if Figure(p).Some? {
      var first, last := MeterStart(p), MeterEnd(p);
      if first.None? || last.None? {
        review, findings := true, findings + [RecomputeImpossible];
      } else if Abs(last.value - first.value - Figure(p).value) > TOLERANCE {
        review, findings := true, findings + [RecomputeMismatch];
      }
    }
  }

  method NoteShape(p: Payload) returns (findings: seq<Finding>)
    ensures findings == ShapeFindings(p)
  {
    findings := [];
    var dropped := Prices(p);
    if dropped != {} {
      findings := findings + [PriceFieldDropped(|dropped|)];
    }
    var extra := Extra(p);
    if extra != {} {
      findings := findings + [UnknownKeys(extra)];
    }
    if OtherFigure(p) != Null {
      findings := findings + [CrossMediumFigure];
    }
    if p.source.Some? && !Known(p.source) {
      findings := findings + [UnknownSource];
    }
  }

  function Customer(p: Payload): Option<string> { if CustomerId in p.keys then p.customerId else None }

  /** An empty reference is no reference. */
  function Reference(p: Payload): Option<string> {
    if ErpRef in p.keys && p.erpRef.Some? && p.erpRef.value != "" then p.erpRef else None
  }

  /** What each finding says of the payload. */
  predicate Says(p: Payload, f: Finding) {
    var figure, first, last := Figure(p), MeterStart(p), MeterEnd(p);
    match f
    case PriceFieldDropped(n) => n > 0 && n == |Prices(p)|
    case UnknownKeys(extra) => extra != {} && extra == Extra(p)
    case CrossMediumFigure => OtherFigure(p) != Null
    case UnknownSource => p.source.Some? && p.source.value.OtherSource?
    case FigureNull => p.status == "ended" && figure.None?
    case MeasurementMissing => p.status == "ended" && p.source == Some(NotMeasured)
    case ApproximateFigure => p.status == "ended" && p.source == Some(IntegratedLegacy)
    case RecomputeImpossible => figure.Some? && (first.None? || last.None?)
    case RecomputeMismatch => figure.Some? && first.Some? && last.Some? && !Recomputes(figure.value, first, last)
  }

  predicate OfShape(f: Finding) { f.PriceFieldDropped? || f.UnknownKeys? || f.CrossMediumFigure? || f.UnknownSource? }

  predicate OfRegisters(f: Finding) { f.RecomputeImpossible? || f.RecomputeMismatch? }

  /** The parse finds exactly what there is to say, and each of it once. */
  lemma FindingsMean(p: Payload)
    ensures forall f :: f in Findings(p) <==> Says(p, f)
    ensures Distinct(Findings(p))
  {
    var shape := ShapeFindings(p);
    ShapeMeans(p);
    EndMeans(p, shape);
    RegistersMean(p, EndFindings(p, shape));
  }

  ghost predicate Distinct(f: seq<Finding>) { forall i, j :: 0 <= i < j < |f| ==> f[i] != f[j] }

  lemma NoteDistinct(f: seq<Finding>, found: bool, g: Finding)
    requires Distinct(f) && g !in f
    ensures Distinct(Note(f, found, g))
  {}

  lemma ShapeMeans(p: Payload)
    ensures forall f :: f in ShapeFindings(p) <==> OfShape(f) && Says(p, f)
    ensures Distinct(ShapeFindings(p))
  {
    var prices, extra := Prices(p), Extra(p);
    assert prices != {} <==> |prices| > 0;
    NotedShape(prices, extra, OtherFigure(p) != Null, p.source.Some? && !Known(p.source));
  }

  /** Four notes of four kinds, for any sets and conditions. */
  lemma NotedShape(prices: set<Key>, extra: set<Key>, cross: bool, unknown: bool)
    ensures var f := Note([], prices != {}, PriceFieldDropped(|prices|));
      var g := Note(f, extra != {}, UnknownKeys(extra));
      var h := Note(g, cross, CrossMediumFigure);
      Distinct(Note(h, unknown, UnknownSource))
  {
    var f := Note([], prices != {}, PriceFieldDropped(|prices|));
    NoteDistinct(f, extra != {}, UnknownKeys(extra));
    var g := Note(f, extra != {}, UnknownKeys(extra));
    NoteDistinct(g, cross, CrossMediumFigure);
    NoteDistinct(Note(g, cross, CrossMediumFigure), unknown, UnknownSource);
  }

  lemma EndMeans(p: Payload, f: seq<Finding>)
    requires Distinct(f) && forall g :: g in f ==> OfShape(g)
    ensures forall g :: g in EndFindings(p, f) <==> g in f || (!OfShape(g) && !OfRegisters(g) && Says(p, g))
    ensures Distinct(EndFindings(p, f))
  {
    var isNull := p.status == "ended" && Figure(p).None?;
    var missing := p.status == "ended" && p.source == Some(NotMeasured);
    var g := Note(f, isNull, FigureNull);
    NoteDistinct(f, isNull, FigureNull);
    NoteDistinct(g, missing, MeasurementMissing);
    NoteDistinct(Note(g, missing, MeasurementMissing), p.status == "ended" && p.source == Some(IntegratedLegacy),
                 ApproximateFigure);
  }

  lemma RegistersMean(p: Payload, f: seq<Finding>)
    requires Distinct(f) && forall g :: g in f ==> !OfRegisters(g)
    ensures forall g :: g in RegisterFindings(p, f) <==> g in f || (OfRegisters(g) && Says(p, g))
    ensures Distinct(RegisterFindings(p, f))
  {
    var registers := MeterStart(p).Some? && MeterEnd(p).Some?;
    var impossible := Figure(p).Some? && !registers;
    NoteDistinct(f, impossible, RecomputeImpossible);
    NoteDistinct(Note(f, impossible, RecomputeImpossible),
                 Figure(p).Some? && registers && !Recomputes(Figure(p).value, MeterStart(p), MeterEnd(p)),
                 RecomputeMismatch);
  }

  /** What a parse promises whoever bills: a recompute finding stands for exactly the figures
      their registers do not confirm and always means review, and an ended session out of review
      has a figure, confirmed, from the register or from a source not named. */
  ghost predicate Trustworthy(r: Parsed) {
    && (RecomputeFailed(r) <==> r.consumption.Some? && !Recomputes(r.consumption.value, r.meterStart, r.meterEnd))
    && (RecomputeFailed(r) ==> r.review)
    && (r.status == "ended" && !r.review ==>
          r.consumption.Some? && r.source != Some(NotMeasured) && r.source != Some(IntegratedLegacy))
  }

  lemma ParseIsTrustworthy(p: Payload)
    requires !Broken(p)
    ensures Trustworthy(Parse(p).value)
  {
    var f := Findings(p);
    assert RecomputeMismatch in f <==>
      && Figure(p).Some? && MeterStart(p).Some? && MeterEnd(p).Some?
      && !Recomputes(Figure(p).value, MeterStart(p), MeterEnd(p));
    assert RecomputeImpossible in f <==> Figure(p).Some? && (MeterStart(p).None? || MeterEnd(p).None?);
  }

  predicate RecomputeFailed(r: Parsed) {
    RecomputeImpossible in r.findings || RecomputeMismatch in r.findings
  }

  // ----- the session row -----

  datatype Status = Reserved | Active | Ended
  datatype Billing = Pending | Billed | ManualReview | NotBillable

  datatype Session = Session(
    erpRef: string, cabinet: nat, outlet: nat, customer: Option<nat>, medium: Medium,
    cabinetSessionId: Option<int>, status: Status, activatedAt: Option<Time>, endedAt: Option<Time>,
    durationMin: Option<int>, energy: Option<int>, water: Option<int>, energyStart: Option<int>, energyEnd: Option<int>,
    waterStart: Option<int>, waterEnd: Option<int>, source: Option<Source>, recomputeOk: Option<bool>,
    billing: Billing, reconciledAt: Option<Time>, ackSentAt: Option<Time>)

  /** The rows a payload is matched against: outlet names, customers' references, cabinet names; and
      whether the database enforces its columns' ranges, as PostgreSQL does and SQLite does not. */
  datatype Site = Site(outletName: nat -> string, customerRef: nat -> Option<string>, displayId: nat -> string,
                       checksColumns: bool)

  function First(rows: seq<Session>, p: Session -> bool): (k: Option<nat>)
    ensures k.Some? ==> k.value < |rows| && p(rows[k.value]) && forall i :: 0 <= i < k.value ==> !p(rows[i])
    ensures k.None? ==> forall i :: 0 <= i < |rows| ==> !p(rows[i])
  {
    if rows == [] then None
    else
      var k := First(rows[..|rows| - 1], p);
      if k.Some? then k else if p(rows[|rows| - 1]) then Some(|rows| - 1) else None
  }

  function Last(rows: seq<Session>, p: Session -> bool): (k: Option<nat>)
    ensures k.Some? ==> k.value < |rows| && p(rows[k.value]) && forall i :: k.value < i < |rows| ==> !p(rows[i])
    ensures k.None? ==> forall i :: 0 <= i < |rows| ==> !p(rows[i])
  {
    if rows == [] then None
    else if p(rows[|rows| - 1]) then Some(|rows| - 1)
    else Last(rows[..|rows| - 1], p)
  }

  function ByReference(cab: nat, r: Parsed): Session -> bool {
    (s: Session) => s.cabinet == cab && Some(s.erpRef) == r.erpRef
  }

  function ByCabinetId(cab: nat, r: Parsed): Session -> bool {
    (s: Session) => s.cabinet == cab && s.cabinetSessionId == Some(r.sessionId)
  }

  function Waiting(site: Site, cab: nat, r: Parsed): Session -> bool {
    (s: Session) =>
      && s.cabinet == cab && s.cabinetSessionId.None? && s.status != Ended
      && s.customer.Some? && site.customerRef(s.customer.value) == r.customer
      && Some(site.outletName(s.outlet)) == r.outlet
  }

  /** The row a payload belongs to: by the ERP's reference, else by the cabinet's id, else the
      newest row of that customer and outlet still waiting for the cabinet. */
  function Match(site: Site, rows: seq<Session>, cab: nat, r: Parsed): (k: Option<nat>)
    ensures k.Some? ==> k.value < |rows| && rows[k.value].cabinet == cab
  {
    var byRef := if r.erpRef.Some? then First(rows, ByReference(cab, r)) else None;
    if byRef.Some? then byRef
    else
      var byId := First(rows, ByCabinetId(cab, r));
      if byId.Some? then byId
      else if r.customer.Some? && r.customer.value != "" && r.outlet.Some? && r.outlet.value != ""
      then Last(rows, Waiting(site, cab, r)) else None
  }

  ghost predicate HasReference(s: Session, cab: nat, ref: Option<string>) {
    ref.Some? && s.cabinet == cab && s.erpRef == ref.value
  }

  ghost predicate HasId(s: Session, cab: nat, id: int) {
    s.cabinet == cab && s.cabinetSessionId.Some? && s.cabinetSessionId.value == id
  }

  /** A reserved or active row of that customer and outlet, not yet known to the cabinet. */
  ghost predicate Waits(site: Site, s: Session, cab: nat, r: Parsed) {
    && s.cabinet == cab && s.cabinetSessionId == None && (s.status == Reserved || s.status == Active)
    && r.customer.Some? && r.customer.value != "" && r.outlet.Some? && r.outlet.value != ""
    && s.customer.Some? && site.customerRef(s.customer.value) == r.customer
    && site.outletName(s.outlet) == r.outlet.value
  }

  /** The search, by what it finds: a row with the ERP's reference before any other; without one, a
      row with the cabinet's id; without either, the newest waiting row of that customer and outlet;
      nothing only when there is none of these. */
  lemma MatchMeans(site: Site, rows: seq<Session>, cab: nat, r: Parsed)
    ensures var k := Match(site, rows, cab, r);
      if exists i :: 0 <= i < |rows| && HasReference(rows[i], cab, r.erpRef) then
        k.Some? && HasReference(rows[k.value], cab, r.erpRef)
      else if exists i :: 0 <= i < |rows| && HasId(rows[i], cab, r.sessionId) then
        k.Some? && HasId(rows[k.value], cab, r.sessionId)
      else if exists i :: 0 <= i < |rows| && Waits(site, rows[i], cab, r) then
        && k.Some? && Waits(site, rows[k.value], cab, r)
        && forall i :: k.value < i < |rows| ==> !Waits(site, rows[i], cab, r)
      else k.None?
  {
    forall i | 0 <= i < |rows|
      ensures HasReference(rows[i], cab, r.erpRef) <==> r.erpRef.Some? && ByReference(cab, r)(rows[i])
      ensures HasId(rows[i], cab, r.sessionId) <==> ByCabinetId(cab, r)(rows[i])
    {}
    if r.customer.Some? && r.customer.value != "" && r.outlet.Some? && r.outlet.value != "" {
      forall i | 0 <= i < |rows| ensures Waits(site, rows[i], cab, r) <==> Waiting(site, cab, r)(rows[i]) {}
    }
  }

  function Quantize(x: Option<real>, unitsPerOne: real): Option<int> {
    if x.Some? then Some(RoundHalfEven(x.value * unitsPerOne)) else None
  }

  const KWH_UNITS := 10000.0
  const LITRE_UNITS := 1000.0

  /** A duration in minutes, as an instant's offset. */
  function Microseconds(minutes: real): int { RoundHalfEven(minutes * 60000000.0) }

  function WithTimes(s: Session, r: Parsed): Session {
    var ended := r.status == "ended";
    s.(cabinetSessionId := Some(r.sessionId),
       status := if ended then Ended else Active,
       activatedAt := r.activatedAt,
       durationMin := Quantize(r.duration, 100.0),
       endedAt := if ended && r.activatedAt.Some? && r.duration.Some?
                  then Some(r.activatedAt.value + Microseconds(r.duration.value)) else s.endedAt)
  }

  function WithFigures(s: Session, r: Parsed): Session {
    if r.medium == Electricity then
      s.(energy := Quantize(r.consumption, KWH_UNITS), energyStart := Quantize(r.meterStart, KWH_UNITS),
         energyEnd := Quantize(r.meterEnd, KWH_UNITS))
    else
      s.(water := Quantize(r.consumption, LITRE_UNITS), waterStart := Quantize(r.meterStart, LITRE_UNITS),
         waterEnd := Quantize(r.meterEnd, LITRE_UNITS))
  }

  /** The payload itself, another outlet, another medium, or a source the table has no word for. */
  predicate ReviewFor(site: Site, s: Session, r: Parsed) {
    || r.review
    || (r.outlet.Some? && r.outlet.value != "" && site.outletName(s.outlet) != r.outlet.value)
    || r.medium != s.medium
    || (r.source.Some? && !Known(r.source))
  }

  /** The row after the payload. */
  function Updated(site: Site, s: Session, r: Parsed, pull: bool, now: Time): Session {
    WithFigures(WithTimes(s, r), r).(
      source := if Known(r.source) then r.source else None,
      recomputeOk := if r.consumption.None? then None else Some(!RecomputeFailed(r)),
      billing := if ReviewFor(site, s, r) then ManualReview else s.billing,
      reconciledAt := if pull && r.status == "ended" then Some(now) else s.reconciledAt)
  }

  datatype Answer = Invalid | Unknown | AlreadyBilled | Refused | Applied

  /** One cabinet's sessions have distinct cabinet ids: the table's own constraint. */
  ghost predicate Unique(rows: seq<Session>) {
    forall i, j :: 0 <= i < j < |rows| && rows[i].cabinet == rows[j].cabinet && rows[i].cabinetSessionId.Some? ==>
      rows[i].cabinetSessionId != rows[j].cabinetSessionId
  }

  /** The constraint would break: another row of the cabinet already has the id. */
  predicate Taken(rows: seq<Session>, k: nat, id: int)
    requires k < |rows|
  {
    exists i :: 0 <= i < |rows| && i != k && rows[i].cabinet == rows[k].cabinet && rows[i].cabinetSessionId == Some(id)
  }

  predicate Within(x: Option<int>, limit: int) { x.Some? ==> -limit < x.value < limit }

  /** A number that its column does not hold: a 32-bit id, twelve or fourteen digits of a figure, ten of
      a duration. */
  predicate Oversize(r: Parsed) {
    var units := if r.medium == Electricity then KWH_UNITS else LITRE_UNITS;
    !( && -0x8000_0000 <= r.sessionId < 0x8000_0000
       && Within(Quantize(r.consumption, units), 1_000_000_000_000)
       && Within(Quantize(r.meterStart, units), 100_000_000_000_000)
       && Within(Quantize(r.meterEnd, units), 100_000_000_000_000)
       && Within(Quantize(r.duration, 100.0), 10_000_000_000))
  }

  /** Where a parsed payload lands, and how the call answers. */
  function Verdict(site: Site, rows: seq<Session>, cab: nat, r: Parsed): Answer {
    if r.cabinet.Some? && r.cabinet.value != "" && r.cabinet.value != site.displayId(cab) then Unknown
    else
      var k := Match(site, rows, cab, r);
      if k.None? then Unknown
      else if rows[k.value].billing == Billed then AlreadyBilled
      else if Taken(rows, k.value, r.sessionId) || (site.checksColumns && Oversize(r)) then Refused
      else Applied
  }

  function Apply(site: Site, rows: seq<Session>, cab: nat, r: Parsed, pull: bool, now: Time): seq<Session> {
    if Verdict(site, rows, cab, r) == Applied then
      var k := Match(site, rows, cab, r).value;
      rows[k := Updated(site, rows[k], r, pull, now)]
    else rows
  }
}
