/** The sign-in machine of one account: password, then a one-time or backup code, with failures of
    both adding up to a lock. Times are whole seconds. */
module SignIn {
  import opened Quantities
  import opened Totp

  type Time = int

  const THRESHOLD: nat := 5
  const LOCKOUT: nat := 15 * 60

  datatype User = User(
    hasPassword: bool, active: bool, failed: nat, lockedUntil: Option<Time>, secret: Option<nat>,
    confirmedAt: Option<Time>, lastStep: Option<int>, backup: set<string>)

  /** The requests that meet the lock, with the clock each reads, and the two things an admin does.
      A code comes with its reading as a backup code; `issued` are the backup codes given out by a
      confirmed enrolment or by a signed-in user's request for new ones, `key` the secret a started
      enrolment draws. */
  datatype Request =
    | Password(correct: bool, now: Time)
    | VerifyCode(code: string, asBackup: string, now: Time)
    | StartEnrolment(key: nat, now: Time)
    | ConfirmEnrolment(code: string, issued: set<string>, now: Time)
    | Regenerate(code: string, issued: set<string>, now: Time)
    | Unlock(now: Time)
    | ResetMfa(now: Time)

  /** A refusal, counted as a failure or not; a password accepted; a step's code accepted; a backup
      code accepted; anything else done. */
  datatype Answer = Refused(counted: bool) | PasswordOk | ByTotp(step: int) | ByBackup | Done

  predicate Locked(u: User, now: Time) { u.lockedUntil.Some? && u.lockedUntil.value > now }

  function Failed(u: User, now: Time): User {
    if u.failed + 1 >= THRESHOLD then u.(failed := 0, lockedUntil := Some(now + LOCKOUT))
    else u.(failed := u.failed + 1)
  }

  function Succeeded(u: User): User { u.(failed := 0, lockedUntil := None) }

  /** The half-way token is honoured for an active account with a password. */
  predicate MayTryCode(u: User) { u.active && u.hasPassword }

  /** A full token is honoured for an active account whose second factor is linked. */
  predicate MayRegenerate(u: User) { u.active && u.confirmedAt.Some? }

  /** Every secret's code of every step. */
  type Tokens = nat -> int -> string

  /** The deployed codes: HOTP of the step under the secret. */
  function HotpTokens(h: Hmac): Tokens
    requires Sha1(h)
  {
    key => Codes(h, key)
  }

  function CodeStep(tokens: Tokens, u: User, code: string, now: Time): Option<int> {
    if u.secret.None? then None else Accepts(tokens(u.secret.value), code, u.lastStep, now)
  }

  const BACKUP_LENGTH := 8

  function Next(tokens: Tokens, u: User, q: Request): (User, Answer)
  {
    match q
    case Password(correct, now) =>
      if !u.hasPassword || Locked(u, now) then (u, Refused(false))
      else if !correct then (Failed(u, now), Refused(true))
      else if !u.active then (u, Refused(false))
      else (u, PasswordOk)
    case VerifyCode(code, asBackup, now) =>
      if !MayTryCode(u) || u.confirmedAt.None? || Locked(u, now) then (u, Refused(false))
      else
        var step := CodeStep(tokens, u, code, now);
        if step.Some? then (Succeeded(u.(lastStep := step)), ByTotp(step.value))
        else if |asBackup| == BACKUP_LENGTH && asBackup in u.backup then
          (Succeeded(u.(backup := u.backup - {asBackup})), ByBackup)
        else (Failed(u, now), Refused(true))
    case StartEnrolment(key, now) =>
      if !MayTryCode(u) || u.confirmedAt.Some? || Locked(u, now) then (u, Refused(false))
      else (u.(secret := Some(key), confirmedAt := None, lastStep := None), Done)
    case ConfirmEnrolment(code, issued, now) =>
      if !MayTryCode(u) || u.confirmedAt.Some? || Locked(u, now) || u.secret.None? then (u, Refused(false))
      else
        var step := CodeStep(tokens, u, code, now);
        if step.Some? then
          (Succeeded(u.(lastStep := step, confirmedAt := Some(now), backup := issued)), ByTotp(step.value))
        else (Failed(u, now), Refused(true))
    case Regenerate(code, issued, now) =>
      if !MayRegenerate(u) then (u, Refused(false))
      else
        var step := CodeStep(tokens, u, code, now);
        if step.Some? then (u.(lastStep := step, backup := issued), ByTotp(step.value))
        else (Failed(u, now), Refused(true))
    case Unlock(_) => (Succeeded(u), Done)
    case ResetMfa(_) => (u.(secret := None, confirmedAt := None, lastStep := None, backup := {}), Done)
  }

  /** The codes of the deployed accounts: six digits that stand for the truncated MAC of the step
      under the account's own secret. */
  lemma DeployedCodes(h: Hmac, key: nat, step: int)
    requires Sha1(h)
    ensures var code := HotpTokens(h)(key)(step);
      |code| == 6 && AllDigits(code) && Value(code) == Truncate(h.mac(key, step)) % 1_000_000
  {
    CodeShape(h, key, step);
    assert Pow10(6) == 1_000_000;
  }

  /** The lock has not run out. */
  predicate LockedAt(lockedUntil: Option<Time>, now: Time) { lockedUntil.Some? && now < lockedUntil.value }

  /** Which requests are answered how: the password step, a code of the account's secret on the three
      routes that take one, a backup code, and what counts as a failure. */
  lemma AnswersMean(tokens: Tokens, u: User, q: Request)
    ensures var (v, a) := Next(tokens, u, q);
      var halfway := u.active && u.hasPassword && !LockedAt(u.lockedUntil, q.now);
      var verifies := q.VerifyCode? && halfway && u.confirmedAt.Some?;
      var confirms := q.ConfirmEnrolment? && halfway && u.confirmedAt.None? && u.secret.Some?;
      var renews := q.Regenerate? && u.active && u.confirmedAt.Some?;
      var takes := verifies || confirms || renews;
      var step := if takes && u.secret.Some? then Accepts(tokens(u.secret.value), q.code, u.lastStep, q.now) else None;
      var backup := verifies && step.None? && |q.asBackup| == 8 && q.asBackup in u.backup;
      var attempts := q.Password? && u.hasPassword && !LockedAt(u.lockedUntil, q.now);
      && (a == PasswordOk <==> attempts && q.correct && u.active)
      && (a.ByTotp? <==> step.Some?) && (a.ByTotp? ==> a.step == step.value)
      && (a.ByBackup? <==> backup)
      && (a == Refused(true) <==> (attempts && !q.correct) || (takes && step.None? && !backup))
      && (a == Done <==> q.Unlock? || q.ResetMfa? || (q.StartEnrolment? && halfway && u.confirmedAt.None?))
  {}

  /** What each answer leaves of the account: nothing else is touched. */
  lemma ChangesMean(tokens: Tokens, u: User, q: Request)
    ensures var (v, a) := Next(tokens, u, q);
      && (a == PasswordOk || a == Refused(false) ==> v == u)
      && (a == Refused(true) && u.failed < 4 ==> v == u.(failed := u.failed + 1))
      && (a == Refused(true) && u.failed >= 4 ==> v == u.(failed := 0, lockedUntil := Some(q.now + 900)))
      && (a.ByTotp? && q.VerifyCode? ==> v == u.(lastStep := Some(a.step), failed := 0, lockedUntil := None))
      && (a.ByTotp? && q.Regenerate? ==> v == u.(lastStep := Some(a.step), backup := q.issued))
      && (a.ByTotp? && q.ConfirmEnrolment? ==> v == u.(lastStep := Some(a.step), backup := q.issued,
                                                       confirmedAt := Some(q.now), failed := 0, lockedUntil := None))
      && (a.ByBackup? ==> v == u.(backup := u.backup - {q.asBackup}, failed := 0, lockedUntil := None))
      && (a == Done && q.StartEnrolment? ==> v == u.(secret := Some(q.key), confirmedAt := None, lastStep := None))
      && (q.Unlock? ==> v == u.(failed := 0, lockedUntil := None))
      && (q.ResetMfa? ==> v == u.(secret := None, confirmedAt := None, lastStep := None, backup := {}))
  {}

  /** The account's row, changed in place by each handler. */
  class Account {
    var u: User
    const tokens: Tokens

    constructor (h: Hmac, u: User)
      requires Sha1(h)
      ensures this.tokens == HotpTokens(h) && this.u == u
    {
      this.tokens, this.u := HotpTokens(h), u;
    }

    method RegisterFailure(now: Time)
      modifies this
      ensures u == Failed(old(u), now)
    {
      u := u.(failed := u.failed + 1);
      if u.failed >= THRESHOLD {
        u := u.(lockedUntil := Some(now + LOCKOUT));
        u := u.(failed := 0);
      }
    }

    method VerifyTotp(code: string, now: Time) returns (ok: bool)
      modifies this
      ensures ok == CodeStep(tokens, old(u), code, now).Some?
      ensures u == if ok then old(u).(lastStep := CodeStep(tokens, old(u), code, now)) else old(u)
    {
      if u.secret.None? {
        return false;
      }
      var step := Verify(tokens(u.secret.value), code, u.lastStep, now);
      if step.None? {
        return false;
      }
      u := u.(lastStep := step);
      ok := true;
    }

    method Login(correct: bool, now: Time) returns (a: Answer)
      modifies this
      ensures (u, a) == Next(tokens, old(u), Password(correct, now))
    {
      if !u.hasPassword || Locked(u, now) {
        return Refused(false);
      }
      if !correct {
        RegisterFailure(now);
        return Refused(true);
      }
      a := if u.active then PasswordOk else Refused(false);
    }

    method MfaVerify(code: string, asBackup: string, now: Time) returns (a: Answer)
      modifies this
      ensures (u, a) == Next(tokens, old(u), VerifyCode(code, asBackup, now))
    {
      if !MayTryCode(u) || u.confirmedAt.None? || Locked(u, now) {
        return Refused(false);
      }
      var ok := VerifyTotp(code, now);
      if ok {
        a := ByTotp(u.lastStep.value);
      } else if |asBackup| == BACKUP_LENGTH && asBackup in u.backup {
        u := u.(backup := u.backup - {asBackup});
        a := ByBackup;
      } else {
        RegisterFailure(now);
        return Refused(true);
      }
      u := u.(failed := 0, lockedUntil := None);
    }

    method EnrollStart(key: nat, now: Time) returns (a: Answer)
      modifies this
      ensures (u, a) == Next(tokens, old(u), StartEnrolment(key, now))
    {
      if !MayTryCode(u) || u.confirmedAt.Some? || Locked(u, now) {
        return Refused(false);
      }
      u := u.(secret := Some(key));
      u := u.(confirmedAt := None);
      u := u.(lastStep := None);
      a := Done;
    }

    method EnrollConfirm(code: string, issued: set<string>, now: Time) returns (a: Answer)
      modifies this
      ensures (u, a) == Next(tokens, old(u), ConfirmEnrolment(code, issued, now))
    {
      if !MayTryCode(u) || u.confirmedAt.Some? || Locked(u, now) || u.secret.None? {
        return Refused(false);
      }
      var ok := VerifyTotp(code, now);
      if !ok {
        RegisterFailure(now);
        return Refused(true);
      }
      a := ByTotp(u.lastStep.value);
      u := u.(confirmedAt := Some(now));
      u := u.(backup := issued);
      u := u.(failed := 0, lockedUntil := None);
    }

    /** New backup codes for a code from the phone; the lock is not asked. */
    method RegenerateCodes(code: string, issued: set<string>, now: Time) returns (a: Answer)
      modifies this
      ensures (u, a) == Next(tokens, old(u), Regenerate(code, issued, now))
    {
      if !MayRegenerate(u) {
        return Refused(false);
      }
      var ok := VerifyTotp(code, now);
      if !ok {
        RegisterFailure(now);
        return Refused(true);
      }
      u := u.(backup := issued);
      a := ByTotp(u.lastStep.value);
    }
  }

  // ----- runs -----

  function After(tokens: Tokens, u: User, qs: seq<Request>): User
  {
    if qs == [] then u else Next(tokens, After(tokens, u, qs[..|qs| - 1]), qs[|qs| - 1]).0
  }

  /** The answer to the last request of a run. */
  function LastAnswer(tokens: Tokens, u: User, qs: seq<Request>): Answer
    requires qs != []
  {
    Next(tokens, After(tokens, u, qs[..|qs| - 1]), qs[|qs| - 1]).1
  }

  ghost predicate InOrder(qs: seq<Request>) {
    forall i, j :: 0 <= i < j < |qs| ==> qs[i].now <= qs[j].now
  }

  /** The failures counted in a run, on any route. */
  function Failures(tokens: Tokens, u: User, qs: seq<Request>): nat {
    if qs == [] then 0
    else Failures(tokens, u, qs[..|qs| - 1]) + if LastAnswer(tokens, u, qs) == Refused(true) then 1 else 0
  }

  /** The failures counted by the password, verify and enrol-confirm steps. */
  function SignInFailures(tokens: Tokens, u: User, qs: seq<Request>): nat {
    if qs == [] then 0
    else
      SignInFailures(tokens, u, qs[..|qs| - 1])
      + if !qs[|qs| - 1].Regenerate? && LastAnswer(tokens, u, qs) == Refused(true) then 1 else 0
  }

  /** The request signs somebody in, or unlocks. */
  predicate Opens(q: Request, a: Answer) { q.Unlock? || (!q.Regenerate? && (a.ByTotp? || a.ByBackup?)) }

  /** Nobody signed in and nobody was unlocked. */
  ghost predicate Fruitless(tokens: Tokens, u: User, qs: seq<Request>) {
    qs == [] ||
    (Fruitless(tokens, u, qs[..|qs| - 1]) && !Opens(qs[|qs| - 1], LastAnswer(tokens, u, qs)))
  }

  // ----- the lock -----

  /** The failed count stays below the threshold after every step of every run. */
  lemma {:induction false} CountStaysBelow(tokens: Tokens, u: User, qs: seq<Request>)
    requires u.failed < THRESHOLD
    ensures After(tokens, u, qs).failed < THRESHOLD
  {
    if qs != [] {
      CountStaysBelow(tokens, u, qs[..|qs| - 1]);
      StepStaysBelow(tokens, After(tokens, u, qs[..|qs| - 1]), qs[|qs| - 1]);
      hide Next;
    }
  }

  lemma StepStaysBelow(tokens: Tokens, u: User, q: Request)
    requires u.failed < THRESHOLD
    ensures Next(tokens, u, q).0.failed < THRESHOLD
  {
    hide CodeStep;
  }

  /** While locked, no request signs in, passes a password or counts a failure, and only an admin's
      unlock changes the lock; but a request for new backup codes does not ask the lock. */
  lemma LockedMeansLocked(tokens: Tokens, u: User, q: Request)
    requires Locked(u, q.now) && !q.Regenerate?
    ensures var (v, a) := Next(tokens, u, q);
      && (a == Refused(false) || q.Unlock? || q.ResetMfa?)
      && (!q.Unlock? ==> v.failed == u.failed && v.lockedUntil == u.lockedUntil)
  {}

  /** So many of the steps' own failures since the first request make so many locks in turn, each a
      lockout after the one before; while the account is locked there are none beyond those. */
  ghost predicate Paced(v: User, n: nat, locks: nat, first: Time, last: Time) {
    && first <= last && v.failed < THRESHOLD
    && n <= THRESHOLD * locks + v.failed && (Locked(v, last) ==> n <= THRESHOLD * locks)
    && (locks > 0 ==> v.lockedUntil.Some? && first + locks * LOCKOUT <= v.lockedUntil.value <= last + LOCKOUT)
    && n <= THRESHOLD * ((last - first) / LOCKOUT + 1)
  }

  /** What a fruitless request does to the counters: a failure of a step is counted on an account that
      is not locked, one of the backup-codes route locked or not, and nothing else touches them. */
  ghost predicate Fails(v: User, w: User, now: Time, counted: bool, own: bool) {
    if counted then
      && (own ==> !Locked(v, now))
      && w.failed == Failed(v, now).failed && w.lockedUntil == Failed(v, now).lockedUntil
    else !own && w.failed == v.failed && w.lockedUntil == v.lockedUntil
  }

  lemma FruitlessStep(tokens: Tokens, v: User, q: Request)
    requires !Opens(q, Next(tokens, v, q).1)
    ensures var (w, a) := Next(tokens, v, q);
      Fails(v, w, q.now, a == Refused(true), a == Refused(true) && !q.Regenerate?)
  {}

  /** A failure on an account that is not locked: the locks so far are all over. */
  lemma OpenFailurePaces(v: User, w: User, n: nat, locks: nat, first: Time, last: Time, now: Time, own: bool)
      returns (locks': nat)
    requires Paced(v, n, locks, first, last) && last <= now && !Locked(v, now) && Fails(v, w, now, true, own)
    ensures Paced(w, n + if own then 1 else 0, locks', first, now)
  {
    locks' := if v.failed + 1 >= THRESHOLD then locks + 1 else locks;
    assert first + locks * LOCKOUT <= now;
    assert locks <= (now - first) / LOCKOUT;
    assert (locks + 1) * LOCKOUT == locks * LOCKOUT + LOCKOUT;
    LongerAllowsMore(last - first, now - first);
  }

  /** A failure on a locked account, which only the backup-codes route counts: at most the lock moves on. */
  lemma LockedFailurePaces(v: User, w: User, n: nat, locks: nat, first: Time, last: Time, now: Time)
    requires Paced(v, n, locks, first, last) && last <= now && Locked(v, now) && Fails(v, w, now, true, false)
    ensures Paced(w, n, locks, first, now)
  {
    LongerAllowsMore(last - first, now - first);
  }

  lemma StepPaces(v: User, w: User, n: nat, locks: nat, first: Time, last: Time, now: Time, counted: bool, own: bool)
      returns (locks': nat)
    requires Paced(v, n, locks, first, last) && last <= now && Fails(v, w, now, counted, own)
    ensures Paced(w, n + if own then 1 else 0, locks', first, now)
  {
    locks' := locks;
    if !counted {
      LongerAllowsMore(last - first, now - first);
    } else if Locked(v, now) {
      LockedFailurePaces(v, w, n, locks, first, last, now);
    } else {
      locks' := OpenFailurePaces(v, w, n, locks, first, last, now, own);
    }
  }

  lemma {:induction false} RunPaces(tokens: Tokens, u: User, qs: seq<Request>) returns (locks: nat)
    requires u.failed < THRESHOLD && qs != [] && InOrder(qs) && Fruitless(tokens, u, qs)
    ensures Paced(After(tokens, u, qs), SignInFailures(tokens, u, qs), locks, qs[0].now, qs[|qs| - 1].now)
  {
    var init, q := qs[..|qs| - 1], qs[|qs| - 1];
    var v, first := After(tokens, u, init), qs[0].now;
    var last := if init == [] then first else init[|init| - 1].now;
    locks := 0;
    if init != [] {
      locks := RunPaces(tokens, u, init);
    }
    FruitlessStep(tokens, v, q);
    var counted := LastAnswer(tokens, u, qs) == Refused(true);
    locks := StepPaces(v, After(tokens, u, qs), SignInFailures(tokens, u, init), locks, first, last, q.now,
                       counted, counted && !q.Regenerate?);
  }

  lemma LongerAllowsMore(s: int, t: int)
    requires 0 <= s <= t
    ensures THRESHOLD * (s / LOCKOUT + 1) <= THRESHOLD * (t / LOCKOUT + 1)
  {}

  /** Rate bound: from any state, with nobody signing in and nobody unlocked, the failures of the
      password, verify and enrol-confirm steps counted over a span T are at most
      threshold * (T / lockout + 1), whatever requests for new backup codes come in between. */
  lemma {:induction false} LockoutRate(tokens: Tokens, u: User, qs: seq<Request>)
    requires u.failed < THRESHOLD && qs != [] && InOrder(qs) && Fruitless(tokens, u, qs)
    ensures SignInFailures(tokens, u, qs) <= THRESHOLD * ((qs[|qs| - 1].now - qs[0].now) / LOCKOUT + 1)
  {
    var locks := RunPaces(tokens, u, qs);
  }

  /** The failures of those requests themselves have no such bound: each wrong code counts, locked or
      not, all of them within one instant. */
  lemma {:induction false} RegenerateIsUnbounded(tokens: Tokens, u: User, now: Time, n: nat)
    requires MayRegenerate(u)
    ensures var qs := seq(n, _ => Regenerate("", {}, now));
      Failures(tokens, u, qs) == n && MayRegenerate(After(tokens, u, qs))
  {
    if n > 0 {
      var qs := seq(n, _ => Regenerate("", {}, now));
      assert qs[..n - 1] == seq(n - 1, _ => Regenerate("", {}, now));
      RegenerateIsUnbounded(tokens, u, now, n - 1);
    }
  }

  // ----- one-time use -----

  /** The steps whose codes were accepted, on any of the three routes that verify them. */
  function Accepted(tokens: Tokens, u: User, qs: seq<Request>): seq<int>
  {
    if qs == [] then []
    else
      var last := LastAnswer(tokens, u, qs);
      Accepted(tokens, u, qs[..|qs| - 1]) + if last.ByTotp? then [last.step] else []
  }

  /** The run stays within one enrolment: no request started a new one, and none was reset. */
  ghost predicate OneEnrolment(tokens: Tokens, u: User, qs: seq<Request>) {
    qs == [] ||
    (OneEnrolment(tokens, u, qs[..|qs| - 1]) && !Restarts(qs[|qs| - 1], LastAnswer(tokens, u, qs)))
  }

  predicate Restarts(q: Request, a: Answer) { (q.StartEnrolment? && a == Done) || q.ResetMfa? }

  ghost predicate Increasing(s: seq<int>) { forall i, j :: 0 <= i < j < |s| ==> s[i] < s[j] }

  lemma StepIsNew(tokens: Tokens, v: User, q: Request)
    requires !Restarts(q, Next(tokens, v, q).1)
    ensures var (w, a) := Next(tokens, v, q);
      if a.ByTotp? then
        && w.lastStep == Some(a.step) && (v.lastStep.Some? ==> v.lastStep.value < a.step)
        && StepAt(q.now) - WINDOW <= a.step <= StepAt(q.now) + WINDOW
      else w.lastStep == v.lastStep
  {}

  ghost predicate AcceptedInOrder(s: seq<int>, before: Option<int>, after: Option<int>) {
    && Increasing(s)
    && (s == [] ==> after == before)
    && (s != [] ==> after == Some(s[|s| - 1]) && (before.Some? ==> before.value < s[0]))
  }

  ghost predicate AllIn(s: seq<int>, lo: int, hi: int) { forall i :: 0 <= i < |s| ==> lo <= s[i] <= hi }

  /** Within one enrolment the accepted steps strictly increase, across all three routes, so no step is
      accepted twice (section 5.2 of RFC 6238). */
  lemma {:induction false} OneTimeUse(tokens: Tokens, u: User, qs: seq<Request>)
    requires OneEnrolment(tokens, u, qs)
    ensures AcceptedInOrder(Accepted(tokens, u, qs), u.lastStep, After(tokens, u, qs).lastStep)
  {
    if qs != [] {
      var init := qs[..|qs| - 1];
      OneTimeUse(tokens, u, init);
      var mid := After(tokens, u, init).lastStep;
      StepIsNew(tokens, After(tokens, u, init), qs[|qs| - 1]);
      if LastAnswer(tokens, u, qs).ByTotp? {
        OneMore(Accepted(tokens, u, init), u.lastStep, mid, LastAnswer(tokens, u, qs).step);
      }
    }
  }

  lemma OneMore(s: seq<int>, before: Option<int>, mid: Option<int>, step: int)
    requires AcceptedInOrder(s, before, mid) && (mid.Some? ==> mid.value < step)
    ensures AcceptedInOrder(s + [step], before, Some(step))
  {
    assert forall i :: 0 <= i < |s| ==> s[i] <= s[|s| - 1];
  }

  /** Each accepted step lies within a step of its request. */
  lemma {:induction false} AcceptedNear(tokens: Tokens, u: User, qs: seq<Request>, lo: Time, hi: Time)
    requires OneEnrolment(tokens, u, qs) && forall i :: 0 <= i < |qs| ==> lo <= qs[i].now <= hi
    ensures AllIn(Accepted(tokens, u, qs), StepAt(lo) - WINDOW, StepAt(hi) + WINDOW)
  {
    if qs != [] {
      var init := qs[..|qs| - 1];
      AcceptedNear(tokens, u, init, lo, hi);
      StepIsNew(tokens, After(tokens, u, init), qs[|qs| - 1]);
    }
  }

  lemma {:induction false} IncreasingIsShort(s: seq<int>, lo: int, hi: int)
    requires Increasing(s) && AllIn(s, lo, hi)
    ensures s != [] ==> |s| <= hi - lo + 1
  {
    if s != [] {
      var n := |s| - 1;
      IncreasingIsShort(s[..n], lo, s[n] - 1);
    }
  }

  /** And over n elapsed steps at most n + 3 codes are accepted. */
  lemma {:induction false} AcceptanceRate(tokens: Tokens, u: User, qs: seq<Request>)
    requires InOrder(qs) && OneEnrolment(tokens, u, qs) && qs != []
    ensures |Accepted(tokens, u, qs)| <= StepAt(qs[|qs| - 1].now) - StepAt(qs[0].now) + 3
  {
    OneTimeUse(tokens, u, qs);
    AcceptedNear(tokens, u, qs, qs[0].now, qs[|qs| - 1].now);
    IncreasingIsShort(Accepted(tokens, u, qs), StepAt(qs[0].now) - WINDOW, StepAt(qs[|qs| - 1].now) + WINDOW);
  }

  /** A backup code works once: accepting one takes it out of the set, and until codes are given out
      again, by a confirmed enrolment or on request, none comes back. */
  lemma {:induction false} BackupCodesRunDown(tokens: Tokens, u: User, qs: seq<Request>)
    requires forall i :: 0 <= i < |qs| ==> !Reissues(qs[i])
    ensures After(tokens, u, qs).backup <= u.backup
    ensures |After(tokens, u, qs).backup| + BackupSignIns(tokens, u, qs) == |u.backup|
  {
    if qs != [] {
      BackupCodesRunDown(tokens, u, qs[..|qs| - 1]);
      BackupStep(tokens, After(tokens, u, qs[..|qs| - 1]), qs[|qs| - 1]);
    }
  }

  lemma BackupStep(tokens: Tokens, v: User, q: Request)
    requires !Reissues(q)
    ensures var (w, a) := Next(tokens, v, q);
      w.backup <= v.backup && |w.backup| + (if a.ByBackup? then 1 else 0) == |v.backup|
  {}

  predicate Reissues(q: Request) { q.ConfirmEnrolment? || q.Regenerate? || q.ResetMfa? }

  function BackupSignIns(tokens: Tokens, u: User, qs: seq<Request>): nat
  {
    if qs == [] then 0
    else BackupSignIns(tokens, u, qs[..|qs| - 1]) + if LastAnswer(tokens, u, qs).ByBackup? then 1 else 0
  }
}
