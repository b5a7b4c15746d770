/** What a delivered payload leaves in the session row, column by column, read off the payload itself. */
module SessionColumns {
  import opened Quantities
  import opened Sessions
  import opened SessionRuns
  import opened RangeRoute

  /** The figure and the registers of the payload's own medium, as sent. */
  function Own(p: Payload): (Number, Number, Number) {
    match p.medium
    case Electricity => (p.energy, p.energyStart, p.energyEnd)
    case _ => (p.water, p.waterStart, p.waterEnd)
  }

  // ----- which payloads are read at all -----

  /** The outlets a medium has; the pattern also lets a closing line feed through. */
  predicate IsOutletOf(m: Medium, name: string) {
    match m
    case Electricity => name in {"Q1", "Q2", "Q3", "Q4", "Q1\n", "Q2\n", "Q3\n", "Q4\n"}
    case _ => name in {"V1", "V2", "V1\n", "V2\n"}
  }

  /** The contract's keys are all the keys there are names for, but the reference and the prices. */
  lemma ContractKeysAre(key: Key)
    ensures key in CONTRACT_KEYS <==> key !in {ErpRef, EstimatedCost, Cost, Price, Amount} && !key.OtherKey?
  {}

  /** A payload is read exactly when every key of the contract is there (the customer's only without an
      ERP reference), the medium is one of the two, the outlet none or one of that medium, and its
      figure, registers, duration and power are numbers or null. */
  lemma ReadWhen(p: Payload)
    ensures !Broken(p) <==>
      && (forall key :: key in CONTRACT_KEYS ==> key in p.keys || (key == CustomerId && ErpRef in p.keys))
      && !p.medium.OtherMedium?
      && (p.socket.NoSocket? || (p.socket.Named? && IsOutletOf(p.medium, p.socket.name)))
      && !Own(p).0.NotNumber? && !Own(p).1.NotNumber? && !Own(p).2.NotNumber?
      && !p.duration.NotNumber? && !p.power.NotNumber?
  {
    KeysWhen(p);
    if p.socket.Named? && !p.medium.OtherMedium? {
      OutletWhen(p.medium, p.socket.name);
    }
  }

  lemma KeysWhen(p: Payload)
    ensures CONTRACT_KEYS - (if ErpRef in p.keys then {CustomerId} else {}) <= p.keys - PRICE_KEYS
       <==> forall key :: key in CONTRACT_KEYS ==> key in p.keys || (key == CustomerId && ErpRef in p.keys)
  {
    var spared := if ErpRef in p.keys then {CustomerId} else {};
    if CONTRACT_KEYS - spared <= p.keys - PRICE_KEYS {
      forall key | key in CONTRACT_KEYS ensures key in p.keys || key in spared {
        assert key !in spared ==> key in CONTRACT_KEYS - spared;
      }
    }
    assert CONTRACT_KEYS !! PRICE_KEYS;
  }

  lemma OutletWhen(m: Medium, name: string)
    requires !m.OtherMedium?
    ensures IsOutletOf(m, name) <==> OutletName(name) && name[0] == if m.Electricity? then 'Q' else 'V'
  {
    if OutletName(name) {
      var c, d := name[0], name[1];
      assert name == if |name| == 2 then [c, d] else [c, d, '\n'];
      assert d == '1' || d == '2' || d == '3' || d == '4';
    }
  }

  /** Who and where, as sent. */
  lemma Identity(p: Payload)
    requires !Broken(p)
    ensures var r := Parse(p).value;
      && r.sessionId == p.sessionId && r.cabinet == p.cabinetId && r.medium == p.medium && r.status == p.status
      && r.outlet == (if p.socket.Named? then Some(p.socket.name) else None)
      && r.customer == (if CustomerId in p.keys then p.customerId else None)
      && (r.erpRef.Some? <==> ErpRef in p.keys && p.erpRef.Some? && p.erpRef.value != "")
      && (r.erpRef.Some? ==> r.erpRef == p.erpRef)
  {}

  /** The registers are there and agree with the figure to a thousandth. */
  predicate Agrees(figure: Number, first: Number, last: Number) {
    figure.Num? && first.Num? && last.Num? && -0.001 <= last.value - first.value - figure.value <= 0.001
  }

  /** What is noted of the payload's shape: how many price keys were dropped, which keys nobody knows, a
      figure of the other medium, a source nobody knows. */
  lemma ShapeNoted(p: Payload)
    ensures forall n :: PriceFieldDropped(n) in Findings(p) <==>
      n > 0 && n == |set key | key in p.keys && key in {EstimatedCost, Cost, Price, Amount}|
    ensures forall extra :: UnknownKeys(extra) in Findings(p) <==>
      extra != {} && forall key :: key in extra <==>
        key in p.keys && key !in CONTRACT_KEYS && key !in {ErpRef, EstimatedCost, Cost, Price, Amount}
    ensures CrossMediumFigure in Findings(p) <==> (if p.medium == Electricity then p.water else p.energy) != Null
    ensures UnknownSource in Findings(p) <==> p.source.Some? && p.source.value.OtherSource?
  {
    FindingsMean(p);
    hide Findings;
    PricesAre(p);
    ExtraIs(p);
  }

  lemma PricesAre(p: Payload)
    ensures Prices(p) == set key | key in p.keys && key in {EstimatedCost, Cost, Price, Amount}
  {}

  lemma ExtraIs(p: Payload)
    ensures forall key :: key in Extra(p) <==>
      key in p.keys && key !in CONTRACT_KEYS && key !in {ErpRef, EstimatedCost, Cost, Price, Amount}
  {}

  /** And of its figure: what is amiss with an ended session's, and whether the registers confirm it. */
  lemma FigureNoted(p: Payload)
    ensures var (figure, first, last), f, ended := Own(p), Findings(p), p.status == "ended";
      && (FigureNull in f <==> ended && !figure.Num?)
      && (MeasurementMissing in f <==> ended && p.source == Some(NotMeasured))
      && (ApproximateFigure in f <==> ended && p.source == Some(IntegratedLegacy))
      && (RecomputeImpossible in f <==> figure.Num? && (!first.Num? || !last.Num?))
      && (RecomputeMismatch in f <==> figure.Num? && first.Num? && last.Num? && !Agrees(figure, first, last))
  {
    FindingsMean(p);
    hide Findings;
  }

  /** So many units would not fit: the figure rounds to at least the limit, up or down. */
  predicate Overflows(sent: Number, unitsPerOne: real, limit: int) {
    sent.Num? && (sent.value * unitsPerOne >= limit as real - 0.5 || sent.value * unitsPerOne <= 0.5 - limit as real)
  }

  /** A number does not fit its column: an id of 32 bits, a figure below 10 to the 8th kWh or to the 9th
      litre, a register a hundred times that, a duration below 10 to the 8th minutes. */
  lemma TooLarge(p: Payload)
    requires !Broken(p)
    ensures var (figure, first, last), units := Own(p), if p.medium == Electricity then 10000.0 else 1000.0;
      Oversize(Parse(p).value) <==>
        || p.sessionId < -0x8000_0000 || 0x8000_0000 <= p.sessionId
        || Overflows(figure, units, 1_000_000_000_000)
        || Overflows(first, units, 100_000_000_000_000) || Overflows(last, units, 100_000_000_000_000)
        || Overflows(p.duration, 100.0, 10_000_000_000)
  {
    var (figure, first, last) := Own(p);
    if p.medium == Electricity {
      KwhFit(figure, 1_000_000_000_000);
      KwhFit(first, 100_000_000_000_000);
      KwhFit(last, 100_000_000_000_000);
    } else {
      LitresFit(figure, 1_000_000_000_000);
      LitresFit(first, 100_000_000_000_000);
      LitresFit(last, 100_000_000_000_000);
    }
    MinutesFit(p.duration, 10_000_000_000);
    hide Findings, NeedsReview, Overflows, Within, Quantize;
  }

  lemma KwhFit(sent: Number, limit: int)
    requires limit % 2 == 0
    ensures Within(Quantize(Read(sent), 10000.0), limit) <==> !Overflows(sent, 10000.0, limit)
  {
    if sent.Num? {
      RoundsWithin(sent.value * 10000.0, limit);
    }
  }

  lemma LitresFit(sent: Number, limit: int)
    requires limit % 2 == 0
    ensures Within(Quantize(Read(sent), 1000.0), limit) <==> !Overflows(sent, 1000.0, limit)
  {
    if sent.Num? {
      RoundsWithin(sent.value * 1000.0, limit);
    }
  }

  lemma MinutesFit(sent: Number, limit: int)
    requires limit % 2 == 0
    ensures Within(Quantize(Read(sent), 100.0), limit) <==> !Overflows(sent, 100.0, limit)
  {
    if sent.Num? {
      RoundsWithin(sent.value * 100.0, limit);
    }
  }

  lemma RoundsWithin(x: real, limit: int)
    requires limit % 2 == 0
    ensures -limit < RoundHalfEven(x) < limit <==> 0.5 - limit as real < x < limit as real - 0.5
  {
    assert (limit - 1) % 2 == 1 && (1 - limit) % 2 == 1;
    var n := RoundHalfEven(x);
    hide RoundHalfEven;
    if n >= limit {
      assert x >= limit as real - 0.5;
    } else if n <= -limit {
      assert x <= 0.5 - limit as real;
    }
  }

  // ----- where it lands -----

  /** The answer: unknown for another cabinet's payload or one that finds no row; a billed row is left
      alone; refused when another row of the cabinet has the id or a number does not fit its column;
      applied otherwise. */
  lemma AnswerWhen(site: Site, rows: seq<Session>, cab: nat, p: Payload)
    requires !Broken(p)
    ensures var r := Parse(p).value;
      var v, k := Verdict(site, rows, cab, r), Match(site, rows, cab, r);
      var elsewhere := p.cabinetId.Some? && p.cabinetId.value != "" && p.cabinetId.value != site.displayId(cab);
      var found := !elsewhere && k.Some?;
      && (v == Unknown <==> !found)
      && (v == AlreadyBilled <==> (found && rows[k.value].billing == Billed))
      && (v == Refused <==> (found && rows[k.value].billing != Billed
                             && (IdIsElsewhere(rows, k.value, p.sessionId) || (site.checksColumns && Oversize(r)))))
      && v != Invalid
  {}

  ghost predicate IdIsElsewhere(rows: seq<Session>, k: nat, id: int)
    requires k < |rows|
  {
    exists i :: 0 <= i < |rows| && i != k && rows[i].cabinet == rows[k].cabinet && rows[i].cabinetSessionId == Some(id)
  }

  /** The row before and after an applied delivery; every other row stays as it was. */
  ghost predicate Delivered(site: Site, rows: seq<Session>, cab: nat, p: Payload, pull: bool, now: Time,
                            before: Session, after: Session) {
    !Broken(p) &&
    var r := Parse(p).value;
    Verdict(site, rows, cab, r) == Applied &&
    var k := Match(site, rows, cab, r).value;
    before == rows[k] && after == Step(site, rows, Op.Deliver(cab, p, pull, now))[k]
  }

  lemma OthersStay(site: Site, rows: seq<Session>, cab: nat, p: Payload, pull: bool, now: Time, i: nat)
    requires i < |rows|
    ensures var next := Step(site, rows, Op.Deliver(cab, p, pull, now));
      |next| == |rows| &&
      (next[i] != rows[i] ==> Delivered(site, rows, cab, p, pull, now, rows[i], next[i]))
  {
    hide Broken, Findings, NeedsReview, Taken, Oversize, Updated;
  }

  // ----- its columns -----

  /** A column is NULL exactly when no number was sent, and within half a unit of it otherwise. */
  predicate Holds(stored: Option<int>, sent: Number, unitsPerOne: real) {
    && (stored.Some? <==> sent.Num?)
    && (sent.Num? ==> -0.5 <= sent.value * unitsPerOne - stored.value as real <= 0.5)
  }

  /** The figure and both registers of the payload's medium are stored, in units of 0.0001 kWh or
      0.001 L; the other medium's columns keep their values. */
  lemma FiguresStored(site: Site, rows: seq<Session>, cab: nat, p: Payload, pull: bool, now: Time,
                      before: Session, after: Session)
    requires Delivered(site, rows, cab, p, pull, now, before, after)
    ensures if p.medium == Electricity then
        && Holds(after.energy, p.energy, 10000.0)
        && Holds(after.energyStart, p.energyStart, 10000.0) && Holds(after.energyEnd, p.energyEnd, 10000.0)
        && after.water == before.water && after.waterStart == before.waterStart && after.waterEnd == before.waterEnd
      else
        && Holds(after.water, p.water, 1000.0)
        && Holds(after.waterStart, p.waterStart, 1000.0) && Holds(after.waterEnd, p.waterEnd, 1000.0)
        && after.energy == before.energy && after.energyStart == before.energyStart
        && after.energyEnd == before.energyEnd
  {
    UpdatedRow(site, rows, cab, p, pull, now, before, after);
  }

  lemma UpdatedRow(site: Site, rows: seq<Session>, cab: nat, p: Payload, pull: bool, now: Time,
                   before: Session, after: Session)
    requires Delivered(site, rows, cab, p, pull, now, before, after)
    ensures after == Updated(site, before, Parse(p).value, pull, now)
  {
    hide Broken, Findings, NeedsReview, Taken, Oversize, WithTimes, WithFigures, ReviewFor;
  }

  /** The cabinet's id, the state and the times are stored; an ended session with its times gets the end
      by which the cabinet lists it. */
  lemma TimesStored(site: Site, rows: seq<Session>, cab: nat, p: Payload, pull: bool, now: Time,
                    before: Session, after: Session)
    requires Delivered(site, rows, cab, p, pull, now, before, after)
    ensures after.cabinetSessionId == Some(p.sessionId) && after.activatedAt == p.activatedAt
    ensures after.status == if p.status == "ended" then Ended else Active
    ensures Holds(after.durationMin, p.duration, 100.0)
    ensures after.endedAt == if EndedAt(p).Some? then EndedAt(p) else before.endedAt
  {
    UpdatedRow(site, rows, cab, p, pull, now, before, after);
    hide Delivered;
    TimesOf(before, p);
  }

  lemma TimesOf(before: Session, p: Payload)
    requires !Broken(p)
    ensures var after := WithTimes(before, Parse(p).value);
      && after.cabinetSessionId == Some(p.sessionId) && after.activatedAt == p.activatedAt
      && after.status == (if p.status == "ended" then Ended else Active)
      && Holds(after.durationMin, p.duration, 100.0)
      && after.endedAt == (if EndedAt(p).Some? then EndedAt(p) else before.endedAt)
  {
    hide Findings, NeedsReview, Broken, Customer, Reference, Figure, MeterStart, MeterEnd;
    MinutesStored(p);
  }

  lemma MinutesStored(p: Payload)
    requires !Broken(p)
    ensures Holds(Quantize(Parse(p).value.duration, 100.0), p.duration, 100.0)
  {
    hide Findings, NeedsReview;
  }

  /** A person must look: an ended session without a figure off the register; a figure its registers do
      not confirm; another outlet or medium than the row's; a source the table has no word for. */
  predicate ForReview(site: Site, row: Session, p: Payload) {
    var (figure, first, last) := Own(p);
    || (p.status == "ended" && (figure == Null || p.source == Some(NotMeasured) || p.source == Some(IntegratedLegacy)))
    || (figure.Num? && !Agrees(figure, first, last))
    || (p.socket.Named? && p.socket.name != site.outletName(row.outlet))
    || p.medium != row.medium
    || (p.source.Some? && p.source.value.OtherSource?)
  }

  /** The marks: the known source, whether the registers confirm the figure, review exactly for these
      reasons or from before, and the reconciliation of an ended payload by a pull. */
  lemma MarksStored(site: Site, rows: seq<Session>, cab: nat, p: Payload, pull: bool, now: Time,
                    before: Session, after: Session)
    requires Delivered(site, rows, cab, p, pull, now, before, after)
    ensures after.source == if p.source.Some? && !p.source.value.OtherSource? then p.source else None
    ensures after.recomputeOk ==
      if Own(p).0.Num? then Some(Agrees(Own(p).0, Own(p).1, Own(p).2)) else None
    ensures after.billing == if ForReview(site, before, p) then ManualReview else before.billing
    ensures after.reconciledAt == if pull && p.status == "ended" then Some(now) else before.reconciledAt
    ensures after.ackSentAt == before.ackSentAt
  {
    UpdatedRow(site, rows, cab, p, pull, now, before, after);
    ReviewMeans(site, before, p);
    RecomputeMeans(p);
    hide Delivered, Broken, ReviewFor, ForReview, RecomputeFailed, Findings, NeedsReview, Agrees;
  }

  lemma ReviewMeans(site: Site, row: Session, p: Payload)
    requires !Broken(p)
    ensures ReviewFor(site, row, Parse(p).value) <==> ForReview(site, row, p)
  {
    hide Findings;
  }

  lemma RecomputeMeans(p: Payload)
    requires !Broken(p)
    ensures Own(p).0.Num? ==> (RecomputeFailed(Parse(p).value) <==> !Agrees(Own(p).0, Own(p).1, Own(p).2))
  {
    ParseIsTrustworthy(p);
    hide Findings, NeedsReview, RecomputeFailed;
  }

  // ----- billing and acknowledgement -----

  /** Exactly the cabinet's billed rows that have its id and no acknowledgement get one. */
  lemma AcknowledgementMarks(site: Site, rows: seq<Session>, cab: nat, now: Time, i: nat)
    requires i < |rows|
    ensures var next := Step(site, rows, Op.Acknowledge(cab, now));
      |next| == |rows| &&
      next[i] == if rows[i].cabinet == cab && rows[i].billing == Billed && rows[i].ackSentAt == None
                    && rows[i].cabinetSessionId != None
                 then rows[i].(ackSentAt := Some(now)) else rows[i]
  {}

  /** A row is billed exactly when it was pending, reconciled, and has the figure of its medium. */
  lemma BillingMarks(site: Site, rows: seq<Session>, k: nat)
    requires k < |rows|
    ensures var next := Step(site, rows, Op.Bill(k))[k];
      var figure := if rows[k].medium == Electricity then rows[k].energy else rows[k].water;
      && (next.billing == Billed <==>
            (rows[k].billing == Billed
             || (rows[k].billing == Pending && rows[k].reconciledAt != None && figure != None)))
      && next == rows[k].(billing := next.billing)
  {}
}
