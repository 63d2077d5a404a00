/**
 One-time proofs of one user: authenticator steps, recovery codes, and the account
 endpoints that enrol, confirm, use, renew and disable them.
 */
module Authenticator {
  import opened Common

  datatype Secret = Secret(text: string)

  /** How a secret lies in its column. */
  datatype Stored = Fernet(secret: Secret) | LocalDemo(secret: Secret) | Unreadable

  /** `generate_otp`: the code of a secret at a time step. */
  type Otp = (Secret, int) -> string

  const PERIOD := 30
  const ENROLLMENT_SECONDS := 600
  const RECOVERY_CODES := 8

  datatype Setting = Setting(stored: Stored, enabled: bool)
  datatype Pending = Pending(stored: Stored, expires: int)
  datatype Totp = Totp(last: int, pending: Option<Pending>)
  datatype Recovery = Recovery(code: string, used: bool)

  /** A committed success: this secret, this step, when the clock stood in `current`. */
  datatype Acceptance = Acceptance(secret: Secret, step: int, current: int)

  /** The user's rows, and as history everything ever accepted, spent and issued. */
  datatype World = World(
    setting: Option<Setting>, totp: Option<Totp>, codes: seq<Recovery>,
    accepted: seq<Acceptance>, spent: seq<string>, issued: set<Secret>, codesIssued: set<string>)

  datatype Verdict = Accepted | Refused | Broken

  datatype Attempt = Attempt(code: Option<string>, recovery: Option<string>, now: nat)

  predicate Truthy(s: Option<string>) { s.Some? && s.value != "" }

  predicate Digit(c: char) { '0' <= c <= '9' }

  predicate Clean(code: Option<string>) {
    code.Some? && |code.value| == 6 && forall c :: c in code.value ==> Digit(c)
  }

  /** A stored secret in the clear; `demo` is the local demonstration environment. */
  function Decrypt(s: Stored, demo: bool): Option<Secret> {
    match s
    case Fernet(secret) => Some(secret)
    case LocalDemo(secret) => if demo then Some(secret) else None
    case Unreadable => None
  }

  // --- consuming a proof ---

  /** The step whose code was given: the current one, the one before, or the one after, in this order. */
  function StepFor(otp: Otp, secret: Secret, code: string, current: int): (step: Option<int>)
    ensures step.Some? ==> current - 1 <= step.value <= current + 1 && otp(secret, step.value) == code
    ensures step.None? ==> forall t :: current - 1 <= t <= current + 1 ==> otp(secret, t) != code
    ensures otp(secret, current) == code ==> step == Some(current)
    ensures step == Some(current + 1) ==> otp(secret, current - 1) != code
  {
    if otp(secret, current) == code then Some(current)
    else if otp(secret, current - 1) == code then Some(current - 1)
    else if otp(secret, current + 1) == code then Some(current + 1)
    else None
  }

  function Row(totp: Option<Totp>): Totp { if totp.Some? then totp.value else Totp(-1, None) }

  function Tried(w: World, otp: Otp, secret: Secret, code: Option<string>, now: nat): (World, bool) {
    var step := if Clean(code) then StepFor(otp, secret, code.value, now / PERIOD) else None;
    if step.None? then (w, false)
    else
      var row := Row(w.totp);
      if row.last < step.value
      then (w.(totp := Some(row.(last := step.value)),
               accepted := w.accepted + [Acceptance(secret, step.value, now / PERIOD)]), true)
      else (w.(totp := Some(row)), false)
  }

  function FirstUnused(codes: seq<Recovery>, code: string): Option<nat> {
    if codes == [] then None
    else
      var n := |codes| - 1;
      var before := FirstUnused(codes[..n], code);
      if before.Some? then before
      else if !codes[n].used && codes[n].code == code then Some(n) else None
  }

  lemma {:induction false} FirstUnusedIs(codes: seq<Recovery>, code: string)
    ensures var f := FirstUnused(codes, code);
      && (f.None? ==> forall k :: 0 <= k < |codes| ==> codes[k].used || codes[k].code != code)
      && (f.Some? ==> f.value < |codes| && !codes[f.value].used && codes[f.value].code == code)
      && (f.Some? ==> forall k :: 0 <= k < f.value ==> codes[k].used || codes[k].code != code)
    decreases |codes|
  {
    if codes != [] { FirstUnusedIs(codes[..|codes| - 1], code); }
  }

  function Spend(w: World, code: Option<string>): (World, bool) {
    if !Truthy(code) || |code.value| > 128 then (w, false)
    else
      var found := FirstUnused(w.codes, code.value);
      FirstUnusedIs(w.codes, code.value);
      if found.None? then (w, false)
      else (w.(codes := w.codes[found.value := Recovery(code.value, true)], spent := w.spent + [code.value]), true)
  }

  function Factor(w: World, otp: Otp, demo: bool, a: Attempt): (World, Verdict) {
    if w.setting.None? || !w.setting.value.enabled then (w, if Truthy(a.recovery) then Refused else Accepted)
    else if Truthy(a.code) && Truthy(a.recovery) then (w, Refused)
    else if Truthy(a.recovery) then
      var (after, ok) := Spend(w, a.recovery);
      (after, if ok then Accepted else Refused)
    else
      var secret := Decrypt(w.setting.value.stored, demo);
      if secret.None? then (w, Broken)
      else
        var (after, ok) := Tried(w, otp, secret.value, a.code, a.now);
        if !ok then (after, Refused)
        else if w.setting.value.stored.LocalDemo?
        then (after.(setting := Some(w.setting.value.(stored := Fernet(secret.value)))), Accepted)
        else (after, Accepted)
  }

  /** Several verifications, one after the other. */
  function Factors(w: World, otp: Otp, demo: bool, attempts: seq<Attempt>): World {
    if attempts == [] then w
    else Factor(Factors(w, otp, demo, attempts[..|attempts| - 1]), otp, demo, attempts[|attempts| - 1]).0
  }

  // --- the endpoints ---

  datatype Call =
    | Login(password: bool, attempt: Attempt)
    | Enroll(password: bool, secret: Secret, now: nat)
    | Confirm(password: bool, code: Option<string>, now: nat, minted: seq<string>)
    | Disable(password: bool, attempt: Attempt)
    | Regenerate(password: bool, attempt: Attempt, minted: seq<string>)
    | ChangePassword(password: bool, attempt: Attempt, same: bool)

  predicate Enabled(w: World) { w.setting.Some? && w.setting.value.enabled }

  function NewCodes(w: World, minted: seq<string>): World {
    w.(codes := seq(|minted|, k requires 0 <= k < |minted| => Recovery(minted[k], false)),
       codesIssued := w.codesIssued + set c | c in minted)
  }

  function Confirmed(w: World, otp: Otp, demo: bool, code: Option<string>, now: nat, minted: seq<string>): World {
    var row := Row(w.totp);
    if row.pending.None? || row.pending.value.expires <= now then w
    else
      var secret := Decrypt(row.pending.value.stored, demo);
      if secret.None? then w
      else
        var (after, ok) := Tried(w, otp, secret.value, code, now);
        if !ok then w
        else
          NewCodes(after, minted).(
            setting := Some(Setting(row.pending.value.stored, true)),
            totp := Some(Row(after.totp).(pending := None)))
  }

  /** The rows after one request; whatever is not committed is rolled back. */
  function Served(w: World, otp: Otp, demo: bool, call: Call): World {
    if !call.password then w
    else
      match call
      case Login(_, a) => if Factor(w, otp, demo, a).1 == Broken then w else Factor(w, otp, demo, a).0
      case Enroll(_, secret, now) =>
        if Enabled(w) then w
        else w.(totp := Some(Totp(-1, Some(Pending(Fernet(secret), now + ENROLLMENT_SECONDS)))),
                issued := w.issued + {secret})
      case Confirm(_, code, now, minted) => Confirmed(w, otp, demo, code, now, minted)
      case Disable(_, a) =>
        var (after, verdict) := Factor(w, otp, demo, a);
        if verdict != Accepted then w
        else
          after.(
            setting := if after.setting.Some? then Some(after.setting.value.(enabled := false)) else None,
            totp := Some(Row(after.totp).(pending := None)))
      case Regenerate(_, a, minted) =>
        var (after, verdict) := Factor(w, otp, demo, a);
        if verdict != Accepted || !Enabled(after) then w else NewCodes(after, minted)
      case ChangePassword(_, a, same) =>
        var (after, verdict) := Factor(w, otp, demo, a);
        if verdict != Accepted || same then w else after
  }

  function After(w: World, otp: Otp, demo: bool, calls: seq<Call>): World {
    if calls == [] then w
    else Served(After(w, otp, demo, calls[..|calls| - 1]), otp, demo, calls[|calls| - 1])
  }

  // --- what every run keeps ---

  function SecretIn(s: Stored): Option<Secret> { if s.Unreadable? then None else Some(s.secret) }

  /** The secret that codes are checked against now: the enabled one, else the one being enrolled. */
  function Active(w: World): Option<Secret> {
    if Enabled(w) then SecretIn(w.setting.value.stored)
    else if Row(w.totp).pending.Some? then SecretIn(Row(w.totp).pending.value.stored)
    else None
  }

  predicate Knows(w: World, s: Stored) { SecretIn(s).Some? ==> SecretIn(s).value in w.issued }

  /** Acceptances of one secret are at strictly later and later steps, each within one of its clock. */
  predicate StepsClimb(accepted: seq<Acceptance>) {
    && (forall i, j :: 0 <= i < j < |accepted| && accepted[i].secret == accepted[j].secret ==>
          accepted[i].step < accepted[j].step)
    && forall i :: 0 <= i < |accepted| ==> accepted[i].current - 1 <= accepted[i].step <= accepted[i].current + 1
  }

  predicate WasAccepted(w: World, secret: Secret, step: int) {
    exists a :: a in w.accepted && a.secret == secret && a.step == step
  }

  /** The counter is the last accepted step of the active secret, or -1 when there is none yet. */
  predicate CounterIsLast(w: World) {
    && Row(w.totp).last >= -1
    && (Active(w).Some? ==>
      && (forall a :: a in w.accepted && a.secret == Active(w).value ==> a.step <= Row(w.totp).last)
      && (Row(w.totp).last == -1 || WasAccepted(w, Active(w).value, Row(w.totp).last)))
  }

  predicate SecretsSound(w: World) {
    && (forall a :: a in w.accepted ==> a.secret in w.issued)
    && (w.setting.Some? ==> Knows(w, w.setting.value.stored))
    && (Row(w.totp).pending.Some? ==> Knows(w, Row(w.totp).pending.value.stored))
    && (Enabled(w) ==> Row(w.totp).pending.None?)
  }

  predicate CodesSound(w: World) {
    && (forall i, j :: 0 <= i < j < |w.codes| ==> w.codes[i].code != w.codes[j].code)
    && (forall r :: r in w.codes ==> r.code in w.codesIssued && (!r.used ==> r.code !in w.spent))
    && (forall c :: c in w.spent ==> c in w.codesIssued)
    && (forall i, j :: 0 <= i < j < |w.spent| ==> w.spent[i] != w.spent[j])
  }

  predicate Sound(w: World) {
    && StepsClimb(w.accepted) && CounterIsLast(w) && SecretsSound(w) && CodesSound(w)
    && (Enabled(w) && Active(w).Some? ==> exists a :: a in w.accepted && a.secret == Active(w).value)
  }

  /** New secrets and recovery codes are random: never issued before. */
  predicate Fresh(w: World, call: Call) {
    match call
    case Enroll(_, secret, _) => secret !in w.issued
    case Confirm(_, _, _, minted) => FreshCodes(w, minted)
    case Regenerate(_, _, minted) => FreshCodes(w, minted)
    case _ => true
  }

  predicate FreshCodes(w: World, minted: seq<string>) {
    && |minted| == RECOVERY_CODES
    && (forall i, j :: 0 <= i < j < |minted| ==> minted[i] != minted[j])
    && forall c :: c in minted ==> c !in w.codesIssued
  }

  lemma DecryptIsStored(s: Stored, demo: bool)
    ensures Decrypt(s, demo).Some? ==> SecretIn(s) == Decrypt(s, demo)
  {}

  lemma TriedKeeps(w: World, otp: Otp, secret: Secret, code: Option<string>, now: nat)
    requires Sound(w) && Active(w) == Some(secret)
    ensures var (after, ok) := Tried(w, otp, secret, code, now);
      && Sound(after) && Active(after) == Some(secret) && after.setting == w.setting
      && after.codes == w.codes && after.codesIssued == w.codesIssued && after.issued == w.issued
      && Row(after.totp).pending == Row(w.totp).pending
      && (ok ==> exists a :: a in after.accepted && a.secret == secret)
  {
    hide CodesSound, StepsClimb;
    var (after, ok) := Tried(w, otp, secret, code, now);
    assert CodesSound(after) by { SameCodes(w, after); }
    if ok {
      AcceptOne(w, after, secret);
    }
  }

  /** The counter has advanced to the one new acceptance. */
  lemma AcceptOne(w: World, after: World, secret: Secret)
    requires StepsClimb(w.accepted) && CounterIsLast(w) && SecretsSound(w) && Active(w) == Some(secret)
    requires after.totp == Some(Row(w.totp).(last := Row(after.totp).last)) && Row(after.totp).last > Row(w.totp).last
    requires after.setting == w.setting && after.issued == w.issued
    requires exists current ::
      && after.accepted == w.accepted + [Acceptance(secret, Row(after.totp).last, current)]
      && current - 1 <= Row(after.totp).last <= current + 1
    ensures StepsClimb(after.accepted) && CounterIsLast(after) && SecretsSound(after)
    ensures exists a :: a in after.accepted && a.secret == secret
  {
    hide StepsClimb;
    ClimbOneMore(w, after);
    assert after.accepted[|w.accepted|] in after.accepted;
    assert WasAccepted(after, secret, Row(after.totp).last);
    assert Knows(w, if Enabled(w) then w.setting.value.stored else Row(w.totp).pending.value.stored);
  }

  lemma SameCodes(w: World, after: World)
    requires CodesSound(w) && after.codes == w.codes && after.codesIssued == w.codesIssued && after.spent == w.spent
    ensures CodesSound(after)
  {}

  lemma ClimbOneMore(w: World, after: World)
    requires StepsClimb(w.accepted) && CounterIsLast(w) && Active(w).Some?
    requires |after.accepted| == |w.accepted| + 1 && after.accepted[..|w.accepted|] == w.accepted
    requires var last := after.accepted[|w.accepted|];
      && last.secret == Active(w).value && last.step > Row(w.totp).last
      && last.current - 1 <= last.step <= last.current + 1
    ensures StepsClimb(after.accepted)
  {}

  lemma SpendKeeps(w: World, code: Option<string>)
    requires Sound(w)
    ensures Sound(Spend(w, code).0)
    ensures Spend(w, code).0.setting == w.setting && Spend(w, code).0.totp == w.totp
  {
    hide StepsClimb;
    var (after, ok) := Spend(w, code);
    if ok {
      FirstUnusedIs(w.codes, code.value);
      var k := FirstUnused(w.codes, code.value).value;
      assert w.codes[k] in w.codes;
      assert CodesSound(after) by { SpentOne(w, after, k); }
    }
  }

  lemma SpentOne(w: World, after: World, k: nat)
    requires CodesSound(w) && k < |w.codes| && !w.codes[k].used
    requires after.codes == w.codes[k := Recovery(w.codes[k].code, true)]
    requires after.spent == w.spent + [w.codes[k].code] && after.codesIssued == w.codesIssued
    ensures CodesSound(after)
  {}

  lemma ReencryptKeeps(w: World, secret: Secret)
    requires Sound(w) && Enabled(w) && Active(w) == Some(secret)
    ensures Sound(w.(setting := Some(w.setting.value.(stored := Fernet(secret)))))
  {}

  lemma FactorKeeps(w: World, otp: Otp, demo: bool, a: Attempt)
    requires Sound(w)
    ensures var after := Factor(w, otp, demo, a).0;
      && Sound(after) && Enabled(after) == Enabled(w) && Active(after) == Active(w)
      && Row(after.totp).pending == Row(w.totp).pending
      && after.codesIssued == w.codesIssued && after.issued == w.issued
  {
    hide StepsClimb, CodesSound;
    if Enabled(w) {
      if Truthy(a.recovery) {
        SpendKeeps(w, a.recovery);
      } else {
        DecryptIsStored(w.setting.value.stored, demo);
        var secret := Decrypt(w.setting.value.stored, demo);
        if secret.Some? {
          TriedKeeps(w, otp, secret.value, a.code, a.now);
          ReencryptKeeps(Tried(w, otp, secret.value, a.code, a.now).0, secret.value);
        }
      }
    }
  }

  lemma NewCodesKeep(w: World, minted: seq<string>)
    requires Sound(w) && FreshCodes(w, minted)
    ensures Sound(NewCodes(w, minted))
  {}

  lemma ConfirmKeeps(w: World, otp: Otp, demo: bool, code: Option<string>, now: nat, minted: seq<string>)
    requires Sound(w) && FreshCodes(w, minted)
    ensures Sound(Confirmed(w, otp, demo, code, now, minted))
  {
    hide StepsClimb, CodesSound;
    var row := Row(w.totp);
    if row.pending.Some? {
      DecryptIsStored(row.pending.value.stored, demo);
      var secret := Decrypt(row.pending.value.stored, demo);
      if secret.Some? {
        TriedKeeps(w, otp, secret.value, code, now);
        NewCodesKeep(Tried(w, otp, secret.value, code, now).0, minted);
        if Tried(w, otp, secret.value, code, now).1 && row.pending.value.expires > now {
          CodesOf(Tried(w, otp, secret.value, code, now).0, minted, Confirmed(w, otp, demo, code, now, minted));
        }
      }
    }
  }

  lemma CodesOf(after: World, minted: seq<string>, confirmed: World)
    requires CodesSound(NewCodes(after, minted))
    requires confirmed.codes == NewCodes(after, minted).codes && confirmed.spent == after.spent
    requires confirmed.codesIssued == NewCodes(after, minted).codesIssued
    ensures CodesSound(confirmed)
  {}

  lemma CallKeeps(w: World, otp: Otp, demo: bool, call: Call)
    requires Sound(w) && Fresh(w, call)
    ensures Sound(Served(w, otp, demo, call))
  {
    hide StepsClimb, CodesSound, Factor, Confirmed, NewCodes;
    match call
    case Login(_, a) => FactorKeeps(w, otp, demo, a);
    case Enroll(_, secret, now) => EnrollKeeps(w, otp, demo, call);
    case Confirm(_, code, now, minted) => ConfirmKeeps(w, otp, demo, code, now, minted);
    case Disable(_, a) => FactorKeeps(w, otp, demo, a); DisableKeeps(Factor(w, otp, demo, a).0);
    case Regenerate(_, a, minted) =>
      FactorKeeps(w, otp, demo, a);
      if call.password && Enabled(w) { NewCodesKeep(Factor(w, otp, demo, a).0, minted); }
    case ChangePassword(_, a, _) => FactorKeeps(w, otp, demo, a);
  }

  lemma EnrollKeeps(w: World, otp: Otp, demo: bool, call: Call)
    requires Sound(w) && Fresh(w, call) && call.Enroll?
    ensures Sound(Served(w, otp, demo, call))
  {
    hide StepsClimb;
  }

  lemma DisableKeeps(w: World)
    requires Sound(w)
    ensures Sound(w.(setting := if w.setting.Some? then Some(w.setting.value.(enabled := false)) else None,
                     totp := Some(Row(w.totp).(pending := None))))
  {
    hide StepsClimb;
  }

  ghost predicate AllFresh(w: World, otp: Otp, demo: bool, calls: seq<Call>) {
    forall k :: 0 <= k < |calls| ==> Fresh(After(w, otp, demo, calls[..k]), calls[k])
  }

  const NEW_USER := World(None, None, [], [], [], {}, {})

  lemma {:induction false} RunKeeps(otp: Otp, demo: bool, calls: seq<Call>)
    requires AllFresh(NEW_USER, otp, demo, calls)
    ensures Sound(After(NEW_USER, otp, demo, calls))
    decreases |calls|
  {
    if calls != [] {
      var n := |calls| - 1;
      assert forall k :: 0 <= k < n ==> calls[..n][..k] == calls[..k];
      RunKeeps(otp, demo, calls[..n]);
      assert Fresh(After(NEW_USER, otp, demo, calls[..n]), calls[n]);
      CallKeeps(After(NEW_USER, otp, demo, calls[..n]), otp, demo, calls[n]);
    }
  }

  /** Whatever the user and others send, no step of a secret and no recovery code is accepted twice. */
  lemma NothingTwice(otp: Otp, demo: bool, calls: seq<Call>)
    requires AllFresh(NEW_USER, otp, demo, calls)
    ensures var w := After(NEW_USER, otp, demo, calls);
      && (forall i, j :: 0 <= i < j < |w.accepted| ==>
            (w.accepted[i].secret, w.accepted[i].step) != (w.accepted[j].secret, w.accepted[j].step))
      && (forall i, j :: 0 <= i < j < |w.spent| ==> w.spent[i] != w.spent[j])
  {
    RunKeeps(otp, demo, calls);
    var w := After(NEW_USER, otp, demo, calls);
    forall i, j | 0 <= i < j < |w.accepted|
      ensures (w.accepted[i].secret, w.accepted[i].step) != (w.accepted[j].secret, w.accepted[j].step)
    {
      if w.accepted[i].secret == w.accepted[j].secret { assert w.accepted[i].step < w.accepted[j].step; }
    }
  }

  /**
   In any reachable state a code of the active secret is accepted exactly when it is a
   clean code of one of the three steps around now and that step is later than every
   step accepted for this secret.
   */
  lemma AcceptsExactly(w: World, otp: Otp, secret: Secret, code: Option<string>, now: nat)
    requires Sound(w) && Active(w) == Some(secret)
    ensures Tried(w, otp, secret, code, now).1 <==>
      && Clean(code) && StepFor(otp, secret, code.value, now / PERIOD).Some?
      && var step := StepFor(otp, secret, code.value, now / PERIOD).value;
         step >= 0 && forall a :: a in w.accepted && a.secret == secret ==> a.step < step
  {
    if Row(w.totp).last != -1 { assert WasAccepted(w, secret, Row(w.totp).last); }
  }

  /**
   A request that read its secret before somebody else disabled and re-enrolled the
   authenticator can be accepted at a step that was accepted before, but only once the
   secret it checks against is no longer the active one.
   */
  lemma ReplayNeedsAnotherSecret(w: World, otp: Otp, secret: Secret, code: Option<string>, now: nat)
    requires Sound(w) && Clean(code) && StepFor(otp, secret, code.value, now / PERIOD).Some?
    requires WasAccepted(w, secret, StepFor(otp, secret, code.value, now / PERIOD).value)
    ensures Tried(w, otp, secret, code, now).1 <==>
      Row(w.totp).last < StepFor(otp, secret, code.value, now / PERIOD).value
    ensures Tried(w, otp, secret, code, now).1 ==> Active(w) != Some(secret)
  {
    if Active(w) == Some(secret) { AcceptsExactly(w, otp, secret, code, now); }
  }

  const SAME_CODE: Option<string> := Some("123456")
  const EIGHT := ["a", "b", "c", "d", "e", "f", "g", "h"]

  function Reenrollment(first: Secret, second: Secret): seq<Call> {
    [Enroll(true, first, 3000), Confirm(true, SAME_CODE, 3000, EIGHT),
     Disable(true, Attempt(SAME_CODE, None, 3030)), Enroll(true, second, 3030)]
  }

  lemma AfterOneMore(w: World, otp: Otp, demo: bool, calls: seq<Call>, n: nat)
    requires n < |calls|
    ensures After(w, otp, demo, calls[..n + 1]) == Served(After(w, otp, demo, calls[..n]), otp, demo, calls[n])
  {
    assert calls[..n + 1][..n] == calls[..n];
  }

  lemma EnrolledAndConfirmed(first: Secret, second: Secret, otp: Otp)
    requires first != second && forall s, t :: otp(s, t) == "123456"
    ensures var w := After(NEW_USER, otp, true, Reenrollment(first, second)[..1]);
      w == NEW_USER.(totp := Some(Totp(-1, Some(Pending(Fernet(first), 3600)))), issued := {first})
    ensures var w := After(NEW_USER, otp, true, Reenrollment(first, second)[..2]);
      && w.setting == Some(Setting(Fernet(first), true)) && w.totp == Some(Totp(100, None))
      && w.accepted == [Acceptance(first, 100, 100)] && w.issued == {first}
  {}

  lemma DisabledAndEnrolled(first: Secret, second: Secret, otp: Otp)
    requires first != second && forall s, t :: otp(s, t) == "123456"
    ensures var w := After(NEW_USER, otp, true, Reenrollment(first, second)[..3]);
      w.setting == Some(Setting(Fernet(first), false)) && w.issued == {first}
    ensures var w := After(NEW_USER, otp, true, Reenrollment(first, second)[..4]);
      && w.accepted == [Acceptance(first, 100, 100), Acceptance(first, 101, 101)]
      && w.totp == Some(Totp(-1, Some(Pending(Fernet(second), 3630))))
  {
    var calls := Reenrollment(first, second);
    EnrolledAndConfirmed(first, second, otp);
    assert Clean(SAME_CODE);
    AfterOneMore(NEW_USER, otp, true, calls, 2);
    AfterOneMore(NEW_USER, otp, true, calls, 3);
    assert StepFor(otp, first, "123456", 101) == Some(101);
  }

  lemma ReenrollmentRuns(first: Secret, second: Secret, otp: Otp)
    requires first != second && forall s, t :: otp(s, t) == "123456"
    ensures AllFresh(NEW_USER, otp, true, Reenrollment(first, second))
    ensures var w := After(NEW_USER, otp, true, Reenrollment(first, second));
      && w.accepted == [Acceptance(first, 100, 100), Acceptance(first, 101, 101)]
      && w.totp == Some(Totp(-1, Some(Pending(Fernet(second), 3630))))
  {
    hide After, Served;
    var calls := Reenrollment(first, second);
    assert calls[..4] == calls && calls[..0] == [];
    EnrolledAndConfirmed(first, second, otp);
    DisabledAndEnrolled(first, second, otp);
    NoCalls(otp);
    FreshAll(otp, calls);
  }

  lemma NoCalls(otp: Otp)
    ensures After(NEW_USER, otp, true, []) == NEW_USER
  {}

  lemma FreshAll(otp: Otp, calls: seq<Call>)
    requires |calls| == 4 && calls[2].Disable?
    requires Fresh(After(NEW_USER, otp, true, calls[..0]), calls[0])
    requires Fresh(After(NEW_USER, otp, true, calls[..1]), calls[1])
    requires Fresh(After(NEW_USER, otp, true, calls[..3]), calls[3])
    ensures AllFresh(NEW_USER, otp, true, calls)
  {}

  lemma ReplayAcrossEnrollments(first: Secret, second: Secret)
    requires first != second
    ensures exists otp: Otp, calls: seq<Call>, code, now: nat ::
      && AllFresh(NEW_USER, otp, true, calls)
      && var w := After(NEW_USER, otp, true, calls);
         && Tried(w, otp, first, code, now).1
         && WasAccepted(w, first, StepFor(otp, first, code.value, now / PERIOD).value)
  {
    var otp: Otp := (s, t) => "123456";
    var calls := Reenrollment(first, second);
    ReenrollmentRuns(first, second, otp);
    var w := After(NEW_USER, otp, true, calls);
    assert w.accepted[0] in w.accepted;
    assert Clean(SAME_CODE) && StepFor(otp, first, "123456", 3000 / PERIOD) == Some(100);
    assert Tried(w, otp, first, SAME_CODE, 3000).1;
  }

  // --- concurrent verification ---

  /** The row that `totp_state` makes sure of. */
  function WithRow(w: World): World { w.(totp := Some(Row(w.totp))) }

  lemma {:induction false} RowMakesNoDifference(w: World, otp: Otp, demo: bool, rivals: seq<Attempt>)
    ensures WithRow(Factors(WithRow(w), otp, demo, rivals)) == WithRow(Factors(w, otp, demo, rivals))
    decreases |rivals|
  {
    if rivals != [] {
      var n := |rivals| - 1;
      RowMakesNoDifference(w, otp, demo, rivals[..n]);
      var a, b := Factors(WithRow(w), otp, demo, rivals[..n]), Factors(w, otp, demo, rivals[..n]);
      OneWithRow(a, otp, demo, rivals[n]);
      OneWithRow(b, otp, demo, rivals[n]);
    }
  }

  lemma OneWithRow(w: World, otp: Otp, demo: bool, a: Attempt)
    ensures WithRow(Factor(WithRow(w), otp, demo, a).0) == WithRow(Factor(w, otp, demo, a).0)
  {}

  /** Verifications only mark recovery codes used, and at most re-encrypt the secret. */
  predicate OnlyUsed(was: World, now: World, demo: bool) {
    && |now.codes| == |was.codes|
    && (forall k :: 0 <= k < |was.codes| ==>
          now.codes[k].code == was.codes[k].code && (was.codes[k].used ==> now.codes[k].used))
    && now.setting.Some? == was.setting.Some? && Enabled(now) == Enabled(was)
    && (Enabled(was) ==>
          || now.setting == was.setting
          || (was.setting.value.stored.LocalDemo? && demo
              && now.setting == Some(Setting(Fernet(was.setting.value.stored.secret), true))))
  }

  lemma {:induction false} RivalsOnlyUse(w: World, otp: Otp, demo: bool, rivals: seq<Attempt>)
    requires Sound(w)
    ensures Sound(Factors(w, otp, demo, rivals)) && OnlyUsed(w, Factors(w, otp, demo, rivals), demo)
    decreases |rivals|
  {
    if rivals != [] {
      hide Sound;
      var n := |rivals| - 1;
      RivalsOnlyUse(w, otp, demo, rivals[..n]);
      var before := Factors(w, otp, demo, rivals[..n]);
      FactorKeeps(before, otp, demo, rivals[n]);
      FactorOnlyUses(before, otp, demo, rivals[n]);
    }
  }

  lemma FactorOnlyUses(w: World, otp: Otp, demo: bool, a: Attempt)
    ensures OnlyUsed(w, Factor(w, otp, demo, a).0, demo)
  {
    if Truthy(a.recovery) { FirstUnusedIs(w.codes, a.recovery.value); }
  }

  /** The first unused match of a stale list is the one to use, unless a rival has used it since; then there is none. */
  lemma StaleMatch(was: World, now: World, demo: bool, code: string, k: nat)
    requires Sound(now) && OnlyUsed(was, now, demo)
    requires k < |was.codes| && !was.codes[k].used && was.codes[k].code == code
    ensures FirstUnused(now.codes, code) == if now.codes[k].used then None else Some(k)
  {
    FirstUnusedIs(now.codes, code);
  }

  lemma NoMatch(was: World, now: World, demo: bool, code: string)
    requires OnlyUsed(was, now, demo)
    requires forall k :: 0 <= k < |was.codes| ==> was.codes[k].used || was.codes[k].code != code
    ensures FirstUnused(now.codes, code) == None
  {
    FirstUnusedIs(now.codes, code);
  }

  /** When the request succeeds. */
  predicate Succeeds(w: World, otp: Otp, demo: bool, call: Call) {
    call.password &&
    match call
    case Login(_, a) => Factor(w, otp, demo, a).1 == Accepted
    case Enroll(_, _, _) => !Enabled(w)
    case Confirm(_, code, now, _) =>
      var pending := Row(w.totp).pending;
      && pending.Some? && now < pending.value.expires && Decrypt(pending.value.stored, demo).Some?
      && Tried(w, otp, Decrypt(pending.value.stored, demo).value, code, now).1
    case Disable(_, a) => Factor(w, otp, demo, a).1 == Accepted
    case Regenerate(_, a, _) => Factor(w, otp, demo, a).1 == Accepted && Enabled(w)
    case ChangePassword(_, a, same) => Factor(w, otp, demo, a).1 == Accepted && !same
  }

  // --- the rows and the code that changes them ---

  class AuthRows {
    const otp: Otp
    const demo: bool
    var setting: Option<Setting>
    var totp: Option<Totp>
    var codes: seq<Recovery>
    ghost var accepted: seq<Acceptance>
    ghost var spent: seq<string>
    ghost var issued: set<Secret>
    ghost var codesIssued: set<string>

    ghost function Now(): World
      reads this
    {
      World(setting, totp, codes, accepted, spent, issued, codesIssued)
    }

    ghost predicate Valid()
      reads this
    {
      Sound(Now())
    }

    constructor (otp: Otp, demo: bool)
      ensures Valid() && Now() == NEW_USER && this.otp == otp && this.demo == demo
    {
      this.otp, this.demo := otp, demo;
      setting, totp, codes := None, None, [];
      accepted, spent, issued, codesIssued := [], [], {}, {};
    }

    /** The user's counter row, made on first use. */
    method TotpState() returns (row: Totp)
      modifies this
      ensures Now() == WithRow(old(Now())) && totp == Some(row)
    {
      if totp.None? { totp := Some(Totp(-1, None)); }
      row := totp.value;
    }

    /** What other requests verify and commit in between. */
    method Others(rivals: seq<Attempt>)
      requires Valid()
      modifies this
      ensures Valid() && Now() == Factors(old(Now()), otp, demo, rivals)
      decreases |rivals|, 0
    {
      var k := 0;
      while k < |rivals|
        invariant 0 <= k <= |rivals| && Valid()
        invariant Now() == Factors(old(Now()), otp, demo, rivals[..k])
      {
        assert rivals[..k + 1][..k] == rivals[..k];
        var verdict := VerifyFactor(rivals[k], []);
        k := k + 1;
      }
      assert rivals[..k] == rivals;
    }

    /**
     The conditional update decides: whatever rivals did since the code was checked, the
     result is as if they came first.
     */
    method ConsumeTotp(secret: Secret, code: Option<string>, now: nat, rivals: seq<Attempt>) returns (ok: bool)
      requires Valid()
      modifies this
      ensures (Now(), ok) == Tried(Factors(old(Now()), otp, demo, rivals), otp, secret, code, now)
      decreases |rivals|, 1
    {
      if !Clean(code) {
        Others(rivals);
        return false;
      }
      var current := now / PERIOD;
      var step := StepFor(otp, secret, code.value, current);
      if step.None? {
        Others(rivals);
        return false;
      }
      ghost var start := Now();
      var row := TotpState();
      StillSound(start);
      Others(rivals);
      RowMakesNoDifference(start, otp, demo, rivals);
      RowStays(WithRow(start), otp, demo, rivals);
      if totp.value.last < step.value {
        totp := Some(totp.value.(last := step.value));
        accepted := accepted + [Acceptance(secret, step.value, current)];
        return true;
      }
      return false;
    }

    /** Look for the code among the rows unused at the time, then update that row unless it has been used since. */
    method ConsumeRecovery(code: Option<string>, rivals: seq<Attempt>) returns (ok: bool)
      requires Valid()
      modifies this
      ensures (Now(), ok) == Spend(Factors(old(Now()), otp, demo, rivals), code)
      decreases |rivals|, 1
    {
      ghost var start := Now();
      RivalsOnlyUse(start, otp, demo, rivals);
      var rows := codes;
      if !Truthy(code) || |code.value| > 128 {
        Others(rivals);
        return false;
      }
      var k := 0;
      while k < |rows|
        invariant 0 <= k <= |rows| && Now() == start && rows == codes
        invariant forall i :: 0 <= i < k ==> rows[i].used || rows[i].code != code.value
      {
        if !rows[k].used && rows[k].code == code.value {
          Others(rivals);
          StaleMatch(start, Now(), demo, code.value, k);
          if codes[k].used { return false; }
          codes := codes[k := codes[k].(used := true)];
          spent := spent + [code.value];
          return true;
        }
        k := k + 1;
      }
      Others(rivals);
      NoMatch(start, Now(), demo, code.value);
      return false;
    }

    /** Concurrent verifications take effect one after the other. */
    method VerifyFactor(a: Attempt, rivals: seq<Attempt>) returns (verdict: Verdict)
      requires Valid()
      modifies this
      ensures Valid() && (Now(), verdict) == Factor(Factors(old(Now()), otp, demo, rivals), otp, demo, a)
      decreases |rivals|, 2
    {
      hide Sound, Tried, Spend;
      ghost var start := Now();
      RivalsOnlyUse(start, otp, demo, rivals);
      FactorKeeps(Factors(start, otp, demo, rivals), otp, demo, a);
      var observed := setting;
      if observed.None? || !observed.value.enabled {
        Others(rivals);
        return if Truthy(a.recovery) then Refused else Accepted;
      }
      if Truthy(a.code) && Truthy(a.recovery) {
        Others(rivals);
        return Refused;
      }
      if Truthy(a.recovery) {
        var ok := ConsumeRecovery(a.recovery, rivals);
        return if ok then Accepted else Refused;
      }
      var secret := Decrypt(observed.value.stored, demo);
      if secret.None? {
        Others(rivals);
        return Broken;
      }
      var ok := ConsumeTotp(secret.value, a.code, a.now, rivals);
      TriedLeavesSetting(Factors(start, otp, demo, rivals), otp, secret.value, a.code, a.now);
      if ok && observed.value.stored.LocalDemo? {
        setting := Some(observed.value.(stored := Fernet(secret.value)));
      }
      return if ok then Accepted else Refused;
    }

    /** All old codes go; eight new, unused ones take their place. */
    method ReplaceRecoveryCodes(minted: seq<string>)
      modifies this
      ensures Now() == NewCodes(old(Now()), minted)
    {
      codes := [];
      var k := 0;
      while k < |minted|
        invariant 0 <= k <= |minted|
        invariant codes == seq(k, i requires 0 <= i < k => Recovery(minted[i], false))
        invariant (setting, totp, accepted, spent, issued, codesIssued)
          == (old(setting), old(totp), old(accepted), old(spent), old(issued), old(codesIssued))
      {
        codes := codes + [Recovery(minted[k], false)];
        k := k + 1;
      }
      codesIssued := codesIssued + set c | c in minted;
    }

    /** Give up everything since the transaction began. */
    method Rollback(s: Option<Setting>, t: Option<Totp>, c: seq<Recovery>, ghost was: World)
      requires s == was.setting && t == was.totp && c == was.codes
      modifies this
      ensures Now() == was
    {
      setting, totp, codes := s, t, c;
      accepted, spent, issued, codesIssued := was.accepted, was.spent, was.issued, was.codesIssued;
    }

    method Login(password: bool, a: Attempt) returns (ok: bool)
      requires Valid()
      modifies this
      ensures Valid() && Now() == Served(old(Now()), otp, demo, Call.Login(password, a))
      ensures ok == Succeeds(old(Now()), otp, demo, Call.Login(password, a))
    {
      hide Sound;
      CallKeeps(Now(), otp, demo, Call.Login(password, a));
      if !password { return false; }
      ghost var was := Now();
      var s, t, c := setting, totp, codes;
      var verdict := VerifyFactor(a, []);
      if verdict == Broken {
        Rollback(s, t, c, was);
        return false;
      }
      return verdict == Accepted;
    }

    method Enroll(password: bool, secret: Secret, now: nat) returns (ok: bool)
      requires Valid() && secret !in issued
      modifies this
      ensures Valid() && Now() == Served(old(Now()), otp, demo, Call.Enroll(password, secret, now))
      ensures ok == Succeeds(old(Now()), otp, demo, Call.Enroll(password, secret, now))
    {
      hide Sound;
      CallKeeps(Now(), otp, demo, Call.Enroll(password, secret, now));
      if !password || (setting.Some? && setting.value.enabled) { return false; }
      var row := TotpState();
      totp := Some(row.(last := -1, pending := Some(Pending(Fernet(secret), now + ENROLLMENT_SECONDS))));
      issued := issued + {secret};
      return true;
    }

    method Confirm(password: bool, code: Option<string>, now: nat, minted: seq<string>) returns (ok: bool)
      requires Valid() && FreshCodes(Now(), minted)
      modifies this
      ensures Valid() && Now() == Served(old(Now()), otp, demo, Call.Confirm(password, code, now, minted))
      ensures ok == Succeeds(old(Now()), otp, demo, Call.Confirm(password, code, now, minted))
    {
      hide Sound, NewCodes;
      CallKeeps(Now(), otp, demo, Call.Confirm(password, code, now, minted));
      if !password { return false; }
      ghost var was := Now();
      var s, t, c := setting, totp, codes;
      StillSound(was);
      var row := TotpState();
      if row.pending.None? || row.pending.value.expires <= now {
        Rollback(s, t, c, was);
        return false;
      }
      var secret := Decrypt(row.pending.value.stored, demo);
      if secret.None? {
        Rollback(s, t, c, was);
        return false;
      }
      assert totp == t;
      ok := ConsumeTotp(secret.value, code, now, []);
      if !ok { return false; }
      setting := Some(Setting(row.pending.value.stored, true));
      totp := Some(totp.value.(pending := None));
      ReplaceRecoveryCodes(minted);
      ConfirmedIs(was, otp, demo, code, now, minted);
    }

    method Disable(password: bool, a: Attempt) returns (ok: bool)
      requires Valid()
      modifies this
      ensures Valid() && Now() == Served(old(Now()), otp, demo, Call.Disable(password, a))
      ensures ok == Succeeds(old(Now()), otp, demo, Call.Disable(password, a))
    {
      hide Sound;
      CallKeeps(Now(), otp, demo, Call.Disable(password, a));
      if !password { return false; }
      ghost var was := Now();
      var s, t, c := setting, totp, codes;
      var verdict := VerifyFactor(a, []);
      if verdict != Accepted {
        Rollback(s, t, c, was);
        return false;
      }
      if setting.Some? { setting := Some(setting.value.(enabled := false)); }
      var row := TotpState();
      totp := Some(row.(pending := None));
      return true;
    }

    method RegenerateCodes(password: bool, a: Attempt, minted: seq<string>) returns (ok: bool)
      requires Valid() && FreshCodes(Now(), minted)
      modifies this
      ensures Valid() && Now() == Served(old(Now()), otp, demo, Call.Regenerate(password, a, minted))
      ensures ok == Succeeds(old(Now()), otp, demo, Call.Regenerate(password, a, minted))
    {
      hide Sound, NewCodes;
      CallKeeps(Now(), otp, demo, Call.Regenerate(password, a, minted));
      if !password { return false; }
      ghost var was := Now();
      var s, t, c := setting, totp, codes;
      FactorOnlyUses(was, otp, demo, a);
      var verdict := VerifyFactor(a, []);
      if verdict != Accepted || setting.None? || !setting.value.enabled {
        Rollback(s, t, c, was);
        return false;
      }
      ReplaceRecoveryCodes(minted);
      return true;
    }

    /** A refused new password also takes back the proof that came with it. */
    method ChangePassword(password: bool, a: Attempt, same: bool) returns (ok: bool)
      requires Valid()
      modifies this
      ensures Valid() && Now() == Served(old(Now()), otp, demo, Call.ChangePassword(password, a, same))
      ensures ok == Succeeds(old(Now()), otp, demo, Call.ChangePassword(password, a, same))
    {
      hide Sound;
      CallKeeps(Now(), otp, demo, Call.ChangePassword(password, a, same));
      if !password { return false; }
      ghost var was := Now();
      var s, t, c := setting, totp, codes;
      var verdict := VerifyFactor(a, []);
      if verdict != Accepted || same {
        Rollback(s, t, c, was);
        return false;
      }
      return true;
    }
  }

  lemma TriedLeavesSetting(w: World, otp: Otp, secret: Secret, code: Option<string>, now: nat)
    ensures Tried(w, otp, secret, code, now).0.setting == w.setting
  {}

  lemma StillSound(w: World)
    requires Sound(w)
    ensures Sound(WithRow(w))
  {}

  lemma {:induction false} RowStays(w: World, otp: Otp, demo: bool, rivals: seq<Attempt>)
    requires w.totp.Some?
    ensures Factors(w, otp, demo, rivals).totp.Some?
    decreases |rivals|
  {
    if rivals != [] { RowStays(w, otp, demo, rivals[..|rivals| - 1]); }
  }

  lemma ConfirmedIs(w: World, otp: Otp, demo: bool, code: Option<string>, now: nat, minted: seq<string>)
    requires Succeeds(w, otp, demo, Call.Confirm(true, code, now, minted))
    ensures var stored := Row(w.totp).pending.value.stored;
      var after := Tried(w, otp, Decrypt(stored, demo).value, code, now).0;
      Served(w, otp, demo, Call.Confirm(true, code, now, minted)) ==
        var row := Row(after.totp).(pending := None);
        NewCodes(after.(setting := Some(Setting(stored, true)), totp := Some(row)), minted)
  {}
}
