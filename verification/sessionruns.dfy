/** What any run of webhook and pull payloads, billings and acknowledgements does to the session
    rows, and the table updated in place. */
module SessionRuns {
  import opened Quantities
  import opened Sessions

  /** A payload delivered, by the pull or by the webhook; a billing, which the table's checks
      guard; an acknowledgement of what is billed. */
  datatype Op =
    | Deliver(cab: nat, p: Payload, pull: bool, now: Time)
    | Bill(k: nat)
    | Acknowledge(cab: nat, now: Time)

  function FigureOf(s: Session): Option<int> { if s.medium == Electricity then s.energy else s.water }

  predicate MayBill(s: Session) { s.billing == Pending && s.reconciledAt.Some? && FigureOf(s).Some? }

  predicate ToAcknowledge(s: Session, cab: nat) {
    s.cabinet == cab && s.billing == Billed && s.ackSentAt.None? && s.cabinetSessionId.Some?
  }

  function Acknowledged(rows: seq<Session>, cab: nat, now: Time): seq<Session> {
    seq(|rows|, i requires 0 <= i < |rows| =>
      if ToAcknowledge(rows[i], cab) then rows[i].(ackSentAt := Some(now)) else rows[i])
  }

  function Step(site: Site, rows: seq<Session>, op: Op): seq<Session> {
    match op
    case Deliver(cab, p, pull, now) => if Broken(p) then rows else Apply(site, rows, cab, Parse(p).value, pull, now)
    case Bill(k) => if k < |rows| && MayBill(rows[k]) then rows[k := rows[k].(billing := Billed)] else rows
    case Acknowledge(cab, now) => Acknowledged(rows, cab, now)
  }

  function Run(site: Site, rows: seq<Session>, ops: seq<Op>): seq<Session>
    decreases |ops|
  {
    if ops == [] then rows else Run(site, Step(site, rows, ops[0]), ops[1..])
  }

  // ----- what may become of a row -----

  /** No payload makes or moves a row, a billed one changes in nothing but its acknowledgement,
      review is left to a person, and a reconciled row stays marked so. */
  ghost predicate Evolves(s: Session, t: Session) {
    && t.erpRef == s.erpRef && t.cabinet == s.cabinet && t.outlet == s.outlet && t.customer == s.customer
    && t.medium == s.medium
    && (s.cabinetSessionId.Some? ==> t.cabinetSessionId.Some?)
    && (s.billing == Billed ==> t == s.(ackSentAt := t.ackSentAt))
    && (s.billing == ManualReview ==> t.billing == ManualReview)
    && (s.reconciledAt.Some? ==> t.reconciledAt.Some?)
    && (s.ackSentAt.Some? ==> t.ackSentAt == s.ackSentAt)
  }

  ghost predicate Reconciles(op: Op, t: Option<Time>) {
    op.Deliver? && op.pull && op.p.status == "ended" && t == Some(op.now)
  }

  lemma {:induction false} StepEvolves(site: Site, rows: seq<Session>, op: Op)
    ensures |Step(site, rows, op)| == |rows|
    ensures forall i :: 0 <= i < |rows| ==> Evolves(rows[i], Step(site, rows, op)[i])
    ensures forall i :: 0 <= i < |rows| && Step(site, rows, op)[i].reconciledAt != rows[i].reconciledAt ==>
      Reconciles(op, Step(site, rows, op)[i].reconciledAt) && Step(site, rows, op)[i].status == Ended
    ensures forall i :: 0 <= i < |rows| && Step(site, rows, op)[i].ackSentAt != rows[i].ackSentAt ==>
      op.Acknowledge? && rows[i].billing == Billed
  {
    if op.Deliver? && !Broken(op.p) && Verdict(site, rows, op.cab, Parse(op.p).value) == Applied {
      UpdateEvolves(site, rows[Match(site, rows, op.cab, Parse(op.p).value).value], Parse(op.p).value, op.pull, op.now);
    }
  }

  lemma UpdateEvolves(site: Site, s: Session, r: Parsed, pull: bool, now: Time)
    requires s.billing != Billed
    ensures var u := Updated(site, s, r, pull, now);
      && Evolves(s, u) && u.ackSentAt == s.ackSentAt
      && (u.reconciledAt != s.reconciledAt ==>
            pull && r.status == "ended" && u.reconciledAt == Some(now) && u.status == Ended)
  {}

  lemma EvolvesOn(s: Session, t: Session, u: Session)
    requires Evolves(s, t) && Evolves(t, u)
    ensures Evolves(s, u)
  {}

  /** Run safety: over any interleaving, rows are neither created nor removed, and each one
      evolves as above; a row newly marked reconciled was marked by a pull of an ended payload. */
  lemma {:induction false} RunSafety(site: Site, rows: seq<Session>, ops: seq<Op>)
    ensures |Run(site, rows, ops)| == |rows|
    ensures forall i :: 0 <= i < |rows| ==> Evolves(rows[i], Run(site, rows, ops)[i])
    ensures forall i :: 0 <= i < |rows| && Run(site, rows, ops)[i].reconciledAt != rows[i].reconciledAt ==>
      exists op :: op in ops && Reconciles(op, Run(site, rows, ops)[i].reconciledAt)
    decreases |ops|
  {
    if ops != [] {
      var next := Step(site, rows, ops[0]);
      StepEvolves(site, rows, ops[0]);
      RunSafety(site, next, ops[1..]);
      var end := Run(site, rows, ops);
      forall i | 0 <= i < |rows|
        ensures Evolves(rows[i], end[i])
        ensures end[i].reconciledAt != rows[i].reconciledAt ==>
          exists op :: op in ops && Reconciles(op, end[i].reconciledAt)
      {
        EvolvesOn(rows[i], next[i], end[i]);
        if end[i].reconciledAt != next[i].reconciledAt {
          var op :| op in ops[1..] && Reconciles(op, end[i].reconciledAt);
          assert op in ops;
        } else if end[i].reconciledAt != rows[i].reconciledAt {
          assert ops[0] in ops;
        }
      }
    }
  }

  // ----- the figure and its registers -----

  /** A stored figure has both registers stored, and differs from their difference by at most
      `slack` units. */
  ghost predicate Confirmed(figure: Option<int>, first: Option<int>, last: Option<int>, slack: int) {
    figure.Some? ==> first.Some? && last.Some? && -slack <= last.value - first.value - figure.value <= slack
  }

  /** A row that may be billed, or is: its figures agree with its registers, to 0.0011 kWh and
      0.002 L; and what the table demands of a billed row. */
  ghost predicate Sane(s: Session) {
    && (s.billing == Pending || s.billing == Billed ==>
          && Confirmed(s.energy, s.energyStart, s.energyEnd, 11)
          && Confirmed(s.water, s.waterStart, s.waterEnd, 2))
    && (s.billing == Billed ==> s.reconciledAt.Some? && FigureOf(s).Some?)
    && (s.ackSentAt.Some? ==> s.billing == Billed)
  }

  /** Three roundings and the recompute tolerance: with n units to one, at most n * 0.001 + 1.5. */
  lemma QuantizedAgree(f: real, first: real, last: real, units: real, slack: int)
    requires Abs(last - first - f) <= TOLERANCE
    requires (units == KWH_UNITS && slack == 11) || (units == LITRE_UNITS && slack == 2)
    ensures -slack <= RoundHalfEven(last * units) - RoundHalfEven(first * units) - RoundHalfEven(f * units) <= slack
  {
    RoundedDifference(last * units, first * units, f * units);
    if units == KWH_UNITS {
      assert last * units == last * 10000.0 && first * units == first * 10000.0 && f * units == f * 10000.0;
    } else {
      assert last * units == last * 1000.0 && first * units == first * 1000.0 && f * units == f * 1000.0;
    }
  }

  lemma RoundedDifference(x: real, y: real, z: real)
    ensures -1.5 <= (RoundHalfEven(x) - RoundHalfEven(y) - RoundHalfEven(z)) as real - (x - y - z) <= 1.5
  {}

  lemma ConfirmedWhenParsed(r: Parsed, units: real, slack: int)
    requires r.consumption.Some? ==> Recomputes(r.consumption.value, r.meterStart, r.meterEnd)
    requires (units == KWH_UNITS && slack == 11) || (units == LITRE_UNITS && slack == 2)
    ensures Confirmed(Quantize(r.consumption, units), Quantize(r.meterStart, units), Quantize(r.meterEnd, units), slack)
  {
    if r.consumption.Some? {
      QuantizedAgree(r.consumption.value, r.meterStart.value, r.meterEnd.value, units, slack);
    }
  }

  lemma UpdateKeepsSane(site: Site, s: Session, p: Payload, pull: bool, now: Time)
    requires Sane(s) && !Broken(p) && s.billing != Billed
    ensures Sane(Updated(site, s, Parse(p).value, pull, now))
  {
    var r := Parse(p).value;
    ParseIsTrustworthy(p);
    if !r.review {
      if r.medium == Electricity {
        ConfirmedWhenParsed(r, KWH_UNITS, 11);
      } else {
        ConfirmedWhenParsed(r, LITRE_UNITS, 2);
      }
    }
  }

  lemma {:induction false} StepKeepsSane(site: Site, rows: seq<Session>, op: Op)
    requires forall i :: 0 <= i < |rows| ==> Sane(rows[i])
    ensures forall i :: 0 <= i < |Step(site, rows, op)| ==> Sane(Step(site, rows, op)[i])
  {
    if op.Deliver? && !Broken(op.p) && Verdict(site, rows, op.cab, Parse(op.p).value) == Applied {
      UpdateKeepsSane(site, rows[Match(site, rows, op.cab, Parse(op.p).value).value], op.p, op.pull, op.now);
    }
  }

  /** Numeric bound: whatever payloads came in whatever order, every figure still to be billed,
      and every figure billed, is the difference of its own two stored registers to within
      0.0011 kWh or 0.002 L; only billed rows are ever acknowledged. */
  lemma {:induction false} FiguresStayConfirmed(site: Site, rows: seq<Session>, ops: seq<Op>)
    requires forall i :: 0 <= i < |rows| ==> Sane(rows[i])
    ensures forall i :: 0 <= i < |Run(site, rows, ops)| ==> Sane(Run(site, rows, ops)[i])
    decreases |ops|
  {
    if ops != [] {
      StepKeepsSane(site, rows, ops[0]);
      FiguresStayConfirmed(site, Step(site, rows, ops[0]), ops[1..]);
    }
  }

  // ----- distinct cabinet ids, and repeated payloads -----

  lemma {:induction false} StepKeepsUnique(site: Site, rows: seq<Session>, op: Op)
    requires Unique(rows)
    ensures Unique(Step(site, rows, op))
  {
    if op.Deliver? && !Broken(op.p) && Verdict(site, rows, op.cab, Parse(op.p).value) == Applied {
      var r := Parse(op.p).value;
      var k := Match(site, rows, op.cab, r).value;
      assert !Taken(rows, k, r.sessionId);
    }
  }

  /** The payload finds the same row again: by the reference as before, else by the id now stored. */
  lemma FindsAgain(site: Site, rows: seq<Session>, cab: nat, r: Parsed, pull: bool, now: Time)
    requires Unique(rows) && Verdict(site, rows, cab, r) == Applied
    ensures Match(site, Apply(site, rows, cab, r, pull, now), cab, r) == Match(site, rows, cab, r)
  {
    var k := Match(site, rows, cab, r).value;
    var after := Apply(site, rows, cab, r, pull, now);
    var byRef, byId := ByReference(cab, r), ByCabinetId(cab, r);
    forall i | 0 <= i < |rows| ensures byRef(after[i]) == byRef(rows[i]) {}
    assert byId(after[k]);
    assert !Taken(rows, k, r.sessionId);
    forall i | 0 <= i < |rows| && i != k ensures !byId(after[i]) {
      assert after[i] == rows[i];
    }
  }

  lemma {:induction false} RunKeepsUnique(site: Site, rows: seq<Session>, ops: seq<Op>)
    requires Unique(rows)
    ensures Unique(Run(site, rows, ops))
    decreases |ops|
  {
    if ops != [] {
      StepKeepsUnique(site, rows, ops[0]);
      RunKeepsUnique(site, Step(site, rows, ops[0]), ops[1..]);
    }
  }

  /** After any run, a payload applied twice with one clock is a payload applied once. */
  lemma {:induction false} RunIdempotent(site: Site, rows: seq<Session>, ops: seq<Op>, cab: nat, p: Payload,
                                         pull: bool, now: Time)
    requires Unique(rows)
    ensures var after, op := Run(site, rows, ops), Deliver(cab, p, pull, now);
      Step(site, Step(site, after, op), op) == Step(site, after, op)
  {
    RunKeepsUnique(site, rows, ops);
    Idempotent(site, Run(site, rows, ops), cab, p, pull, now);
  }

  /** Applying a payload again, with the same clock, changes nothing. */
  lemma {:induction false} Idempotent(site: Site, rows: seq<Session>, cab: nat, p: Payload, pull: bool, now: Time)
    requires Unique(rows)
    ensures var op := Deliver(cab, p, pull, now); Step(site, Step(site, rows, op), op) == Step(site, rows, op)
  {
    if !Broken(p) && Verdict(site, rows, cab, Parse(p).value) == Applied {
      var r := Parse(p).value;
      var k := Match(site, rows, cab, r).value;
      var after := Apply(site, rows, cab, r, pull, now);
      FindsAgain(site, rows, cab, r, pull, now);
      assert Updated(site, after[k], r, pull, now) == after[k];
      assert after[k := after[k]] == after;
    }
  }

  /** A pull of an ended payload marks the row it finds, unless that row is billed already or
      the table refuses the cabinet's id. */
  lemma PullReconciles(site: Site, rows: seq<Session>, cab: nat, p: Payload, now: Time)
    requires !Broken(p) && p.status == "ended" && Verdict(site, rows, cab, Parse(p).value) == Applied
    ensures var k := Match(site, rows, cab, Parse(p).value).value;
      Step(site, rows, Deliver(cab, p, true, now))[k].reconciledAt == Some(now)
  {}

  // ----- the table -----

  class SessionTable {
    var rows: seq<Session>

    constructor (rows: seq<Session>)
      ensures this.rows == rows
    {
      this.rows := rows;
    }

    /** Parse, find, refuse or assign, field by field. */
    method Deliver(site: Site, cab: nat, p: Payload, pull: bool, now: Time) returns (a: Answer)
      modifies this
      ensures rows == Step(site, old(rows), Op.Deliver(cab, p, pull, now))
      ensures a == if Broken(p) then Invalid else Verdict(site, old(rows), cab, Parse(p).value)
    {
      var parsed := ParseSession(p);
      if parsed.None? {
        return Invalid;
      }
      var r := parsed.value;
      if r.cabinet.Some? && r.cabinet.value != "" && r.cabinet.value != site.displayId(cab) {
        return Unknown;
      }
      var found := Match(site, rows, cab, r);
      if found.None? {
        return Unknown;
      }
      var k := found.value;
      var s := rows[k];
      if s.billing == Billed {
        return AlreadyBilled;
      }
      if Taken(rows, k, r.sessionId) || (site.checksColumns && Oversize(r)) {
        return Refused;
      }
      s := Assign(site, s, r, pull, now);
      rows := rows[k := s];
      a := Applied;
    }
  }

  /** The assignments, one by one: identity and times, the figures of the medium, the marks. */
  method AssignTimes(row: Session, r: Parsed) returns (s: Session)
    ensures s == WithTimes(row, r)
  {
    s := row.(cabinetSessionId := Some(r.sessionId));
    s := s.(status := if r.status == "ended" then Ended else Active);
    s := s.(activatedAt := r.activatedAt);
    s := s.(durationMin := Quantize(r.duration, 100.0));
    if s.status == Ended && s.activatedAt.Some? && r.duration.Some? {
      s := s.(endedAt := Some(s.activatedAt.value + Microseconds(r.duration.value)));
    }
  }

  method AssignFigures(row: Session, r: Parsed) returns (s: Session)
    ensures s == WithFigures(row, r)
  {
    s := row;
    if r.medium == Electricity {
      s := s.(energy := Quantize(r.consumption, KWH_UNITS));
      s := s.(energyStart := Quantize(r.meterStart, KWH_UNITS), energyEnd := Quantize(r.meterEnd, KWH_UNITS));
    } else {
      s := s.(water := Quantize(r.consumption, LITRE_UNITS));
      s := s.(waterStart := Quantize(r.meterStart, LITRE_UNITS), waterEnd := Quantize(r.meterEnd, LITRE_UNITS));
    }
  }

  method Assign(site: Site, row: Session, r: Parsed, pull: bool, now: Time) returns (s: Session)
    ensures s == Updated(site, row, r, pull, now)
  {
    var review := r.review;
    if r.outlet.Some? && r.outlet.value != "" && site.outletName(row.outlet) != r.outlet.value {
      review := true;
    }
    if r.medium != row.medium {
      review := true;
    }
    s := AssignTimes(row, r);
    s := AssignFigures(s, r);
    if Known(r.source) {
      s := s.(source := r.source);
    } else {
      s := s.(source := None);
      review := review || r.source.Some?;
    }
    s := s.(recomputeOk := if r.consumption.None? then None else Some(!RecomputeFailed(r)));
    if review {
      s := s.(billing := ManualReview);
    }
    if pull && r.status == "ended" {
      s := s.(reconciledAt := Some(now));
    }
  }
}
