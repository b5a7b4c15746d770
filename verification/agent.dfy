/** The security agent: stateless passes over a sliding window, alarms inserted once per case,
    and retention that deletes old alarms under it. */
module Agent {

  type Time = int

  /** A bucketed rule: rows of one source within one bucket make one case when they carry enough
      distinct tags. For failed sign-ins the tag is the e-mail tried, in lower case. */
  datatype Rule = Rule(bucket: int, need: nat)

  const SECOND: int := 1_000_000
  const LOGIN_SPRAY := Rule(15 * 60 * SECOND, 3)
  const DECOY_TOUCH := Rule(86_400 * SECOND, 1)

  datatype Row = Row(source: string, tag: string, at: Time)

  datatype Case = Case(source: string, bucket: int)

  function CaseOf(rule: Rule, r: Row): Case
    requires rule.bucket > 0
  {
    Case(r.source, r.at / rule.bucket)
  }

  /** A row belongs to a case: the same source, at a time inside the case's bucket. */
  predicate InCase(rule: Rule, r: Row, c: Case) {
    r.source == c.source && c.bucket * rule.bucket <= r.at < (c.bucket + 1) * rule.bucket
  }

  /** The bucket a row is put into is the one case it belongs to. */
  lemma CaseOfMeans(rule: Rule, r: Row, c: Case)
    requires rule.bucket > 0
    ensures CaseOf(rule, r) == c <==> InCase(rule, r, c)
  {
    InBucket(r.at, rule.bucket);
    if InCase(rule, r, c) {
      OneBucket(r.at, rule.bucket, c.bucket, r.at / rule.bucket);
    }
  }

  lemma InBucket(at: int, bucket: int)
    requires bucket > 0
    ensures (at / bucket) * bucket <= at < (at / bucket + 1) * bucket
  {}

  /** Buckets do not overlap. */
  lemma OneBucket(at: int, bucket: int, m: int, n: int)
    requires bucket > 0 && m * bucket <= at < (m + 1) * bucket && n * bucket <= at < (n + 1) * bucket
    ensures m == n
  {
    assert m * bucket - n * bucket == (m - n) * bucket;
  }

  /** The distinct tags of a case that a pass over [since, now] sees. */
  function Tags(rule: Rule, log: seq<Row>, c: Case, since: Time, now: Time): set<string> {
    set r | r in log && InCase(rule, r, c) && since <= r.at <= now :: r.tag
  }

  /** The cases a pass finds. */
  function Found(rule: Rule, log: seq<Row>, since: Time, now: Time): set<Case>
    requires rule.bucket > 0
  {
    set r | r in log && since <= r.at <= now && rule.need <= |Tags(rule, log, CaseOf(rule, r), since, now)| ::
      CaseOf(rule, r)
  }

  /** The whole bucket, seen at once, is a case. */
  ghost predicate IsCase(rule: Rule, log: seq<Row>, c: Case) {
    rule.need <= |set r | r in log && InCase(rule, r, c) :: r.tag|
  }

  /** The tags are those of the rows with the case's source inside both its bucket and the window. */
  lemma TagsAre(rule: Rule, log: seq<Row>, c: Case, since: Time, now: Time, tag: string)
    ensures tag in Tags(rule, log, c, since, now) <==>
      exists r :: r in log && r.tag == tag && r.source == c.source && since <= r.at <= now &&
        c.bucket * rule.bucket <= r.at < (c.bucket + 1) * rule.bucket
  {}

  lemma TagsNext(rule: Rule, log: seq<Row>, r: Row, c: Case, since: Time, now: Time)
    ensures Tags(rule, log + [r], c, since, now) ==
      Tags(rule, log, c, since, now) + if InCase(rule, r, c) && since <= r.at <= now then {r.tag} else {}
  {
    hide InCase;
    assert forall x :: x in log + [r] <==> x in log || x == r;
    forall tag ensures tag in Tags(rule, log + [r], c, since, now) <==>
        tag in Tags(rule, log, c, since, now) || (InCase(rule, r, c) && since <= r.at <= now && tag == r.tag) {
      if InCase(rule, r, c) && since <= r.at <= now && tag == r.tag {
        assert r in log + [r];
      }
    }
  }

  /** What a pass finds is what its window holds enough distinct tags of. */
  lemma FoundMeans(rule: Rule, log: seq<Row>, since: Time, now: Time, c: Case)
    requires rule.bucket > 0 && rule.need > 0
    ensures c in Found(rule, log, since, now) <==> rule.need <= |Tags(rule, log, c, since, now)|
  {
    forall r | r in log ensures CaseOf(rule, r) == c <==> InCase(rule, r, c) {
      CaseOfMeans(rule, r, c);
    }
    if rule.need <= |Tags(rule, log, c, since, now)| {
      var tag :| tag in Tags(rule, log, c, since, now);
      var r :| r in log && InCase(rule, r, c) && since <= r.at <= now && r.tag == tag;
      assert CaseOf(rule, r) == c;
    }
  }

  /** The rule's own loops: rows into buckets, then the buckets with enough distinct tags. A case
      is found exactly when the window's rows with its source, inside its bucket, carry enough. */
  method FindCases(rule: Rule, log: seq<Row>, since: Time, now: Time) returns (out: seq<Case>)
    requires rule.bucket > 0 && rule.need > 0
    ensures forall c :: c in out <==> rule.need <= |Tags(rule, log, c, since, now)|
    ensures forall c :: c in out <==> c in Found(rule, log, since, now)
    ensures forall i, j :: 0 <= i < j < |out| ==> out[i] != out[j]
  {
    assert forall c :: Tags(rule, [], c, since, now) == {};
    hide InCase, CaseOf, Tags, Found;
    var buckets: map<Case, set<string>> := map[];
    for i := 0 to |log|
      invariant forall c :: Tags(rule, log[..i], c, since, now) == if c in buckets then buckets[c] else {}
    {
      var r := log[i];
      forall c ensures CaseOf(rule, r) == c <==> InCase(rule, r, c) {
        CaseOfMeans(rule, r, c);
      }
      forall c ensures Tags(rule, log[..i + 1], c, since, now) ==
          Tags(rule, log[..i], c, since, now) + if CaseOf(rule, r) == c && since <= r.at <= now then {r.tag} else {} {
        assert log[..i + 1] == log[..i] + [r];
        TagsNext(rule, log[..i], r, c, since, now);
      }
      if since <= r.at <= now {
        var c := CaseOf(rule, r);
        buckets := buckets[c := (if c in buckets then buckets[c] else {}) + {r.tag}];
      }
    }
    assert log[..|log|] == log;
    out := [];
    var todo := buckets.Keys;
    while todo != {}
      invariant todo <= buckets.Keys
      invariant forall c :: c in out <==> c in buckets.Keys - todo && rule.need <= |buckets[c]|
      invariant forall i, j :: 0 <= i < j < |out| ==> out[i] != out[j]
      decreases |todo|
    {
      var c :| c in todo;
      if rule.need <= |buckets[c]| {
        out := out + [c];
      }
      todo := todo - {c};
    }
    forall c ensures c in Found(rule, log, since, now) <==> rule.need <= |Tags(rule, log, c, since, now)| {
      FoundMeans(rule, log, since, now, c);
    }
  }

  // ----- runs -----

  /** The alarm table, and when each case was ever inserted into it. */
  datatype Trail = Trail(alarms: map<Case, Time>, history: map<Case, seq<Time>>)

  const START := Trail(map[], map[])

  function Inserts(t: Trail, c: Case): seq<Time> { if c in t.history then t.history[c] else [] }

  /** A pass of the agent, or a retention run over the alarms. */
  datatype Op = Pass(now: Time) | Retain(now: Time)

  datatype Setting = Setting(rule: Rule, window: int, keep: int)

  /** The window holds a whole bucket, and an alarm outlives every window that could find its
      case again. */
  predicate Sound(s: Setting) {
    0 < s.rule.bucket <= s.window && s.rule.need > 0 && s.window + s.rule.bucket <= s.keep
  }

  /** Insert every case that has no alarm yet. */
  function WithAlarms(alarms: map<Case, Time>, cases: set<Case>, now: Time): map<Case, Time> {
    map c | c in alarms.Keys + cases :: if c in alarms then alarms[c] else now
  }

  function Insert(t: Trail, cases: set<Case>, now: Time): Trail {
    Trail(WithAlarms(t.alarms, cases, now),
          map c | c in t.history.Keys + cases ::
            if c in cases && c !in t.alarms then Inserts(t, c) + [now] else Inserts(t, c))
  }

  function Step(s: Setting, log: seq<Row>, t: Trail, op: Op): Trail
    requires Sound(s)
  {
    match op
    case Pass(now) => Insert(t, Found(s.rule, log, now - s.window, now), now)
    case Retain(now) => t.(alarms := map c | c in t.alarms && now - s.keep <= t.alarms[c] :: t.alarms[c])
  }

  function Run(s: Setting, log: seq<Row>, ops: seq<Op>): Trail
    requires Sound(s)
  {
    if ops == [] then START else Step(s, log, Run(s, log, ops[..|ops| - 1]), ops[|ops| - 1])
  }

  ghost predicate InOrder(ops: seq<Op>) {
    forall i, j :: 0 <= i < j < |ops| ==> ops[i].now <= ops[j].now
  }

  /** A case was inserted at most once, when the history says, within its bucket's reach; its
      alarm is in the table, or was inserted longer ago than alarms are kept. */
  ghost predicate Kept(s: Setting, log: seq<Row>, t: Trail, clock: Time, c: Case)
    requires Sound(s)
  {
    && |Inserts(t, c)| <= 1
    && (c in t.alarms ==> Inserts(t, c) == [t.alarms[c]])
    && (Inserts(t, c) != [] ==>
          && c.bucket * s.rule.bucket <= Inserts(t, c)[0] <= clock
          && IsCase(s.rule, log, c)
          && (c in t.alarms || Inserts(t, c)[0] < clock - s.keep))
  }

  lemma SubsetIsSmaller<T>(a: set<T>, b: set<T>)
    requires a <= b
    ensures |a| <= |b|
  {
    assert b == a + (b - a);
  }

  /** What a pass finds is a case of the whole log, with a row inside the window. */
  lemma FoundIsCase(s: Setting, log: seq<Row>, now: Time, c: Case)
    requires Sound(s) && c in Found(s.rule, log, now - s.window, now)
    ensures IsCase(s.rule, log, c)
    ensures c.bucket * s.rule.bucket <= now < (c.bucket + 1) * s.rule.bucket + s.window
  {
    var r :| r in log && now - s.window <= r.at <= now && CaseOf(s.rule, r) == c;
    SubsetIsSmaller(Tags(s.rule, log, c, now - s.window, now), set r | r in log && InCase(s.rule, r, c) :: r.tag);
    CaseOfMeans(s.rule, r, c);
  }

  /** A case already inserted and since deleted is out of every window that follows. */
  lemma NotFoundAgain(s: Setting, log: seq<Row>, t: Trail, clock: Time, now: Time, c: Case)
    requires Sound(s) && Kept(s, log, t, clock, c) && clock <= now
    requires c in Found(s.rule, log, now - s.window, now) && c !in t.alarms
    ensures Inserts(t, c) == []
  {
    FoundIsCase(s, log, now, c);
    assert (c.bucket + 1) * s.rule.bucket == c.bucket * s.rule.bucket + s.rule.bucket;
  }

  lemma InsertKeeps(s: Setting, log: seq<Row>, t: Trail, found: set<Case>, clock: Time, now: Time, c: Case)
    requires Sound(s) && Kept(s, log, t, clock, c) && clock <= now
    requires c in found && c !in t.alarms ==>
      Inserts(t, c) == [] && IsCase(s.rule, log, c) && c.bucket * s.rule.bucket <= now
    ensures Kept(s, log, Insert(t, found, now), now, c)
    ensures c in found ==> Inserts(Insert(t, found, now), c) != []
  {}

  lemma {:induction false} PassKeeps(s: Setting, log: seq<Row>, t: Trail, clock: Time, now: Time, c: Case)
    requires Sound(s) && Kept(s, log, t, clock, c) && clock <= now
    ensures Kept(s, log, Step(s, log, t, Pass(now)), now, c)
    ensures c in Found(s.rule, log, now - s.window, now) ==> Inserts(Step(s, log, t, Pass(now)), c) != []
  {
    hide InCase, CaseOf, Found, Tags, IsCase;
    NewIsCase(s, log, t, clock, now, c);
    InsertKeeps(s, log, t, Found(s.rule, log, now - s.window, now), clock, now, c);
  }

  lemma NewIsCase(s: Setting, log: seq<Row>, t: Trail, clock: Time, now: Time, c: Case)
    requires Sound(s) && Kept(s, log, t, clock, c) && clock <= now
    ensures c in Found(s.rule, log, now - s.window, now) && c !in t.alarms ==>
      Inserts(t, c) == [] && IsCase(s.rule, log, c) && c.bucket * s.rule.bucket <= now
  {
    if c in Found(s.rule, log, now - s.window, now) && c !in t.alarms {
      NotFoundAgain(s, log, t, clock, now, c);
      FoundIsCase(s, log, now, c);
    }
  }

  lemma {:induction false} RunKeeps(s: Setting, log: seq<Row>, ops: seq<Op>, clock: Time, c: Case)
    requires Sound(s) && InOrder(ops) && forall i :: 0 <= i < |ops| ==> ops[i].now <= clock
    ensures Kept(s, log, Run(s, log, ops), clock, c)
  {
    if ops != [] {
      var init, op := ops[..|ops| - 1], ops[|ops| - 1];
      RunKeeps(s, log, init, op.now, c);
      if op.Pass? {
        PassKeeps(s, log, Run(s, log, init), op.now, op.now, c);
      }
    }
  }

  // ----- completeness -----

  function Passes(ops: seq<Op>): seq<Time> {
    if ops == [] then []
    else Passes(ops[..|ops| - 1]) + if ops[|ops| - 1].Pass? then [ops[|ops| - 1].now] else []
  }

  /** Passes are never more than `gap` apart, the first is not after `till`, the last not before `from`. */
  ghost predicate Reach(passes: seq<Time>, gap: int, from: Time, till: Time) {
    && passes != [] && passes[0] <= till && from <= passes[|passes| - 1]
    && (forall i :: 0 < i < |passes| ==> passes[i] - passes[i - 1] <= gap)
  }

  /** Then one of them falls between the two. */
  lemma {:induction false} SomePassFalls(passes: seq<Time>, from: Time, till: Time) returns (i: nat)
    requires from <= till && Reach(passes, till - from, from, till)
    ensures i < |passes| && from <= passes[i] <= till
  {
    i := |passes| - 1;
    if till < passes[i] {
      assert passes[i] - passes[i - 1] <= till - from;
      i := SomePassFalls(passes[..i], from, till);
    }
  }

  /** The passes see the whole bucket of a case: never more than the window less one bucket
      apart, the first early enough, the last after the bucket's end. */
  ghost predicate Spans(s: Setting, passes: seq<Time>, c: Case) {
    var start := c.bucket * s.rule.bucket;
    Reach(passes, s.window - s.rule.bucket, start + s.rule.bucket, start + s.window)
  }

  lemma SeenWhole(s: Setting, log: seq<Row>, now: Time, c: Case)
    requires Sound(s) && IsCase(s.rule, log, c)
    requires c.bucket * s.rule.bucket + s.rule.bucket <= now <= c.bucket * s.rule.bucket + s.window
    ensures c in Found(s.rule, log, now - s.window, now)
  {
    assert (c.bucket + 1) * s.rule.bucket == c.bucket * s.rule.bucket + s.rule.bucket;
    assert Tags(s.rule, log, c, now - s.window, now) == set r | r in log && InCase(s.rule, r, c) :: r.tag;
    FoundMeans(s.rule, log, now - s.window, now, c);
  }

  lemma {:induction false} FoundIsInserted(s: Setting, log: seq<Row>, ops: seq<Op>, i: nat, c: Case)
    requires Sound(s) && InOrder(ops) && i < |Passes(ops)|
    requires c in Found(s.rule, log, Passes(ops)[i] - s.window, Passes(ops)[i])
    ensures Inserts(Run(s, log, ops), c) != []
  {
    var init, op := ops[..|ops| - 1], ops[|ops| - 1];
    if i < |Passes(init)| {
      FoundIsInserted(s, log, init, i, c);
    } else {
      RunKeeps(s, log, init, op.now, c);
      PassKeeps(s, log, Run(s, log, init), op.now, op.now, c);
    }
  }

  lemma {:induction false} SpannedIsInserted(s: Setting, log: seq<Row>, ops: seq<Op>, c: Case)
    requires Sound(s) && InOrder(ops)
    requires Spans(s, Passes(ops), c) && IsCase(s.rule, log, c)
    ensures Inserts(Run(s, log, ops), c) != []
  {
    var i := SomePassFalls(Passes(ops), c.bucket * s.rule.bucket + s.rule.bucket, c.bucket * s.rule.bucket + s.window);
    SeenWhole(s, log, Passes(ops)[i], c);
    FoundIsInserted(s, log, ops, i, c);
  }

  /** Exactly once. With passes no further apart than the window less one bucket, over the whole
      run including retention: a bucket the passes span opens exactly one alarm if it is a case
      and none if it is not; no bucket ever opens two, and an alarm deleted by retention is never
      opened again. */
  lemma {:induction false} ExactlyOnce(s: Setting, log: seq<Row>, ops: seq<Op>, c: Case)
    requires Sound(s) && InOrder(ops)
    ensures |Inserts(Run(s, log, ops), c)| <= 1
    ensures !IsCase(s.rule, log, c) ==> Inserts(Run(s, log, ops), c) == []
    ensures Spans(s, Passes(ops), c) && IsCase(s.rule, log, c) ==> |Inserts(Run(s, log, ops), c)| == 1
  {
    if ops != [] {
      RunKeeps(s, log, ops, ops[|ops| - 1].now, c);
      if Spans(s, Passes(ops), c) && IsCase(s.rule, log, c) {
        SpannedIsInserted(s, log, ops, c);
      }
    }
  }

  /** After a retention run the table holds exactly the alarms inserted within the time kept. */
  lemma {:induction false} RetentionKeepsRecent(s: Setting, log: seq<Row>, ops: seq<Op>, c: Case)
    requires Sound(s) && InOrder(ops) && ops != [] && ops[|ops| - 1].Retain?
    ensures var t, now := Run(s, log, ops), ops[|ops| - 1].now;
      c in t.alarms <==> Inserts(t, c) != [] && now - s.keep <= Inserts(t, c)[0]
  {
    RunKeeps(s, log, ops, ops[|ops| - 1].now, c);
  }

  /** A rule that one row satisfies, as a touched decoy, needs less: passes no further apart
      than the window find every row's case. */
  lemma {:induction false} OneRowIsEnough(s: Setting, log: seq<Row>, ops: seq<Op>, r: Row)
    requires Sound(s) && s.rule.need == 1 && InOrder(ops) && r in log
    requires Reach(Passes(ops), s.window, r.at, r.at + s.window)
    ensures |Inserts(Run(s, log, ops), Case(r.source, r.at / s.rule.bucket))| == 1
  {
    var c := Case(r.source, r.at / s.rule.bucket);
    InBucket(r.at, s.rule.bucket);
    var i := SomePassFalls(Passes(ops), r.at, r.at + s.window);
    var now := Passes(ops)[i];
    assert r.tag in Tags(s.rule, log, c, now - s.window, now);
    SubsetIsSmaller({r.tag}, Tags(s.rule, log, c, now - s.window, now));
    FoundMeans(s.rule, log, now - s.window, now, c);
    FoundIsInserted(s, log, ops, i, c);
    ExactlyOnce(s, log, ops, c);
  }

  /** The windows in use meet the condition for both rules: a day's window, alarms kept 730 days. */
  lemma DefaultsAreSound()
    ensures Sound(Setting(LOGIN_SPRAY, 86_400 * SECOND, 730 * 86_400 * SECOND))
    ensures Sound(Setting(DECOY_TOUCH, 86_400 * SECOND, 730 * 86_400 * SECOND))
  {}

  // ----- the pass itself -----

  class AlarmTable {
    var alarms: map<Case, Time>

    constructor ()
      ensures alarms == map[]
    {
      alarms := map[];
    }

    /** Insert, or nothing when the case has its alarm. */
    method Insert(c: Case, now: Time) returns (inserted: bool)
      modifies this
      ensures inserted <==> c !in old(alarms)
      ensures alarms == if inserted then old(alarms)[c := now] else old(alarms)
    {
      if c in alarms {
        return false;
      }
      alarms := alarms[c := now];
      inserted := true;
    }

    /** One rule of one pass; in the shadow it inserts nothing. */
    method RunOnce(s: Setting, log: seq<Row>, active: bool, now: Time) returns (inserted: nat)
      requires Sound(s)
      modifies this
      ensures var found := Found(s.rule, log, now - s.window, now);
        && (active ==> alarms == WithAlarms(old(alarms), found, now) && |alarms| == |old(alarms)| + inserted)
        && (!active ==> alarms == old(alarms) && inserted == 0)
    {
      inserted := 0;
      hide InCase, CaseOf, Found, Tags;
      if !active {
        return;
      }
      var findings := FindCases(s.rule, log, now - s.window, now);
      inserted := InsertAll(findings, now);
      assert (set c | c in findings) == Found(s.rule, log, now - s.window, now);
    }

    /** The findings are distinct cases, so each insert that lands is one more alarm. */
    method InsertAll(findings: seq<Case>, now: Time) returns (inserted: nat)
      requires forall i, j :: 0 <= i < j < |findings| ==> findings[i] != findings[j]
      modifies this
      ensures alarms == WithAlarms(old(alarms), (set c | c in findings), now)
      ensures |alarms| == |old(alarms)| + inserted
    {
      inserted := 0;
      ghost var before, done: set<Case> := alarms, {};
      for i := 0 to |findings|
        invariant forall c :: c in done <==> c in findings[..i]
        invariant alarms == WithAlarms(before, done, now) && |alarms| == |before| + inserted
      {
        var c := findings[i];
        AddOne(before, done, c, now);
        var added := Insert(c, now);
        if added {
          inserted := inserted + 1;
        }
        done := done + {c};
      }
      assert done == set c | c in findings;
    }
  }

  lemma AddOne(alarms: map<Case, Time>, done: set<Case>, c: Case, now: Time)
    ensures var sofar := WithAlarms(alarms, done, now);
      WithAlarms(alarms, done + {c}, now) == if c in sofar then sofar else sofar[c := now]
  {}

  // ----- case keys -----

  function Join(a: string, b: string): string { a + "|" + b }

  function LastBar(k: string): int {
    if k == "" then -1 else if k[|k| - 1] == '|' then |k| - 1 else LastBar(k[..|k| - 1])
  }

  lemma {:induction false} LastBarOf(a: string, b: string)
    requires '|' !in b
    ensures LastBar(Join(a, b)) == |a|
  {
    if b == "" {
      assert Join(a, b)[|a|] == '|';
    } else {
      assert Join(a, b)[..|Join(a, b)| - 1] == Join(a, b[..|b| - 1]);
      LastBarOf(a, b[..|b| - 1]);
    }
  }

  /** A key ending in a part without a bar determines both parts. */
  lemma JoinLast(a: string, b: string, c: string, d: string)
    requires '|' !in b && '|' !in d && Join(a, b) == Join(c, d)
    ensures a == c && b == d
  {
    LastBarOf(a, b);
    LastBarOf(c, d);
    assert a == Join(a, b)[..|a|] && c == Join(c, d)[..|c|];
    assert b == Join(a, b)[|a| + 1..] && d == Join(c, d)[|c| + 1..];
  }

  function FirstBar(k: string): nat {
    if k == "" || k[0] == '|' then 0 else 1 + FirstBar(k[1..])
  }

  lemma {:induction false} FirstBarOf(a: string, b: string)
    requires '|' !in a
    ensures FirstBar(Join(a, b)) == |a|
  {
    if a != "" {
      assert Join(a, b)[1..] == Join(a[1..], b);
      FirstBarOf(a[1..], b);
    }
  }

  /** And one beginning with such a part. */
  lemma JoinFirst(a: string, b: string, c: string, d: string)
    requires '|' !in a && '|' !in c && Join(a, b) == Join(c, d)
    ensures a == c && b == d
  {
    FirstBarOf(a, b);
    FirstBarOf(c, d);
    assert a == Join(a, b)[..|a|] && c == Join(c, d)[..|c|];
    assert b == Join(a, b)[|a| + 1..] && d == Join(c, d)[|c| + 1..];
  }

  /** The decoy rule's key, `kind|decoy|address|day`, names one case only: of its four parts the
      decoy alone may hold a bar. */
  lemma DecoyKeyIsOneCase(kind: string, decoy: string, ip: string, day: string,
                          kind': string, decoy': string, ip': string, day': string)
    requires '|' !in kind && '|' !in ip && '|' !in day && '|' !in kind' && '|' !in ip' && '|' !in day'
    requires Join(Join(Join(kind, decoy), ip), day) == Join(Join(Join(kind', decoy'), ip'), day')
    ensures kind == kind' && decoy == decoy' && ip == ip' && day == day'
  {
    JoinLast(Join(Join(kind, decoy), ip), day, Join(Join(kind', decoy'), ip'), day');
    JoinLast(Join(kind, decoy), ip, Join(kind', decoy'), ip');
    JoinFirst(kind, decoy, kind', decoy');
  }
}
