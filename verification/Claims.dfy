/** Claim results, the policy that permits a claim, the retry rule, and the session that gates it. */
module ClaimRules {
  import opened Domain

  datatype ResultClass =
    | Success | AlreadySaved | NotActive | ExpiredResult | ExhaustedResult | IneligibleResult | InvalidVoucher
    | SessionExpired | VerificationRequiredResult | RateLimited | TransientFailure | UnknownResponse
  {
    predicate IsSuccessEquivalent() { Success? || AlreadySaved? }

    predicate IsTerminal() {
      Success? || AlreadySaved? || ExpiredResult? || ExhaustedResult? || IneligibleResult? || InvalidVoucher?
    }

    function RetryClassOf(): RetryClass {
      match this
      case Success | AlreadySaved | ExpiredResult | ExhaustedResult | IneligibleResult | InvalidVoucher => NoRetry
      case NotActive => RetryAtStart
      case SessionExpired | VerificationRequiredResult => PauseSession
      case RateLimited => RetryAfterRateLimit
      case TransientFailure => RetryAfterBackoff
      case UnknownResponse => DiagnosticBudget
    }
  }

  datatype RetryClass =
    | NoRetry | RetryAfterBackoff | RetryAfterRateLimit | RetryAtStart | PauseSession | DiagnosticBudget

  datatype SessionState =
    | UnknownSession | Healthy | Degraded | ExpiredSession | LoginRequired | VerificationRequired | Disabled
  {
    predicate BlocksClaims() { ExpiredSession? || LoginRequired? || VerificationRequired? || Disabled? }

    predicate AllowsClaims() { Healthy? }

    predicate NeedsManualAction() { LoginRequired? || VerificationRequired? }
  }

  // ----- policy -----

  datatype Refusal =
    | AutoClaimDisabled | ExcludedByRule | AlreadyClaimed | UntrustedSource | NoIdentifiers | VoucherExpired
    | BudgetExhausted | ScoreTooLow

  datatype Decision =
    | Allow
    | Deny(refusal: Refusal)
    | Defer(until: Option<Instant>)
    | ManualReview

  datatype PolicyInputs = PolicyInputs(
    voucher: Voucher, session: SessionState, now: Instant, alreadySucceeded: bool, attemptsUsed: nat,
    maxAttempts: nat, autoClaimEnabled: bool, minScore: int, score: Option<int>, excluded: bool, trustedSource: bool)

  predicate HasClaimIdentifiers(v: Voucher) {
    (v.terms.promotionId.Some? && v.terms.signature.Some?) || v.terms.code.Some?
  }

  /** Terminal denials first, then the session, then the voucher, then the budget. */
  function Evaluate(i: PolicyInputs): Decision {
    if !i.autoClaimEnabled then Deny(AutoClaimDisabled)
    else if i.excluded then Deny(ExcludedByRule)
    else if i.alreadySucceeded then Deny(AlreadyClaimed)
    else if !i.trustedSource then Deny(UntrustedSource)
    else if i.session.NeedsManualAction() then ManualReview
    else if i.session.BlocksClaims() then Defer(None)
    else if !i.session.AllowsClaims() then Defer(None)
    else if !HasClaimIdentifiers(i.voucher) then Deny(NoIdentifiers)
    else if i.voucher.terms.endAt.Some? && i.voucher.terms.endAt.value <= i.now then Deny(VoucherExpired)
    else if i.voucher.terms.startAt.Some? && i.voucher.terms.startAt.value > i.now then Defer(i.voucher.terms.startAt)
    else if i.attemptsUsed >= i.maxAttempts then Deny(BudgetExhausted)
    else if i.score.Some? && i.score.value < i.minScore then Deny(ScoreTooLow)
    else Allow
  }

  /** The rules in any order: a claim is allowed exactly when every one of them is satisfied. */
  lemma AllowedIff(i: PolicyInputs)
    ensures Evaluate(i) == Allow <==>
            && i.autoClaimEnabled && !i.excluded && !i.alreadySucceeded && i.trustedSource && i.session == Healthy
            && HasClaimIdentifiers(i.voucher)
            && (i.voucher.terms.endAt.Some? ==> i.now < i.voucher.terms.endAt.value)
            && (i.voucher.terms.startAt.Some? ==> i.voucher.terms.startAt.value <= i.now)
            && i.attemptsUsed < i.maxAttempts
            && (i.score.Some? ==> i.score.value >= i.minScore)
  {
  }

  // ----- retry -----

  const SECOND: nat := 1000
  const MAX_BACKOFF: nat := 60 * SECOND
  const RATE_LIMIT_FLOOR: nat := 2 * SECOND

  datatype RetryStep = Terminal | RetryAfter(delay: nat) | RescheduleAtStart | PauseForSession | ReviewRequiredStep

  function Backoff(base: nat, attemptIndex: nat): nat {
    var delay := base * Pow2(if attemptIndex <= 16 then attemptIndex else 16);
    if delay <= MAX_BACKOFF then delay else MAX_BACKOFF
  }

  function NextStep(
      class_: ResultClass, attemptIndex: nat, maxAttempts: nat, base: nat, diagnosticBudget: nat): RetryStep {
    match class_.RetryClassOf()
    case NoRetry => Terminal
    case RetryAtStart => RescheduleAtStart
    case PauseSession => PauseForSession
    case DiagnosticBudget =>
      if attemptIndex + 1 >= diagnosticBudget then ReviewRequiredStep else RetryAfter(Backoff(base, attemptIndex))
    case RetryAfterBackoff =>
      if attemptIndex + 1 >= maxAttempts then Terminal else RetryAfter(Backoff(base, attemptIndex))
    case RetryAfterRateLimit =>
      if attemptIndex + 1 >= maxAttempts then Terminal
      else
        var delay := Backoff(base, attemptIndex);
        RetryAfter(if delay >= RATE_LIMIT_FLOOR then delay else RATE_LIMIT_FLOOR)
  }

  /** A terminal result is never retried, and no wait exceeds a minute. */
  lemma RetryBounded(class_: ResultClass, attemptIndex: nat, maxAttempts: nat, base: nat, diagnosticBudget: nat)
    ensures var step := NextStep(class_, attemptIndex, maxAttempts, base, diagnosticBudget);
            && (class_.IsTerminal() ==> step == Terminal)
            && (step.RetryAfter? ==> step.delay <= MAX_BACKOFF)
            && (step.RetryAfter? && class_ == RateLimited ==> step.delay >= RATE_LIMIT_FLOOR)
  {
  }

  ghost predicate RetriesWithinBudget(maxAttempts: nat, base: nat, diagnosticBudget: nat) {
    forall class_: ResultClass, index: nat |
      index < maxAttempts && NextStep(class_, index, maxAttempts, base, diagnosticBudget).RetryAfter? ::
      index + 1 < maxAttempts
  }

  /**
   * A retry is only ever promised while an attempt is left, exactly when the diagnostic budget does not exceed the
   * attempt budget; otherwise an unknown response to the last attempt is told to retry and can never be.
   */
  lemma RetriesWithinBudgetIff(maxAttempts: nat, base: nat, diagnosticBudget: nat)
    ensures RetriesWithinBudget(maxAttempts, base, diagnosticBudget)
            <==> maxAttempts == 0 || diagnosticBudget <= maxAttempts
  {
    if maxAttempts > 0 && diagnosticBudget > maxAttempts {
      assert NextStep(UnknownResponse, maxAttempts - 1, maxAttempts, base, diagnosticBudget).RetryAfter?;
    }
  }

  // ----- session -----

  datatype SessionEvent = SessionStateChanged(previous: SessionState, current: SessionState, reason: string)

  class SessionManager {
    var state: SessionState
    var checkedAt: Option<Instant>
    var lastHealthyAt: Option<Instant>
    var reasonCode: Option<string>
    var gateOpen: bool

    /** The published gate agrees with the state. */
    ghost predicate Valid()
      reads this
    {
      gateOpen == state.AllowsClaims() && (state == Healthy ==> reasonCode == None)
    }

    constructor ()
      ensures Valid() && state == UnknownSession && lastHealthyAt == None
    {
      state, checkedAt, lastHealthyAt, reasonCode, gateOpen := UnknownSession, None, None, None, false;
    }

    /** Announces a change exactly when the state changed, and republishes the gate. */
    method Observe(newState: SessionState, reason: string, now: Instant) returns (event: Option<SessionEvent>)
      requires Valid()
      modifies this
      ensures Valid() && state == newState && checkedAt == Some(now)
      ensures event == if old(state) == newState then None else Some(SessionStateChanged(old(state), newState, reason))
      ensures lastHealthyAt == if newState == Healthy then Some(now) else old(lastHealthyAt)
      ensures reasonCode == if newState == Healthy then None else Some(reason)
    {
      var previous := state;
      checkedAt := Some(now);
      if newState == Healthy {
        lastHealthyAt := Some(now);
      }
      if previous == newState {
        if newState != Healthy {
          reasonCode := Some(reason);
        }
        return None;
      }
      state := newState;
      reasonCode := if newState == Healthy then None else Some(reason);
      gateOpen := newState.AllowsClaims();
      event := Some(SessionStateChanged(previous, newState, reason));
    }
  }
}

/** One controlled claim attempt: policy, gate, durable intent, execution, bookkeeping. */
module ClaimService {
  import opened Domain
  import opened ClaimRules

  datatype Attempt = Attempt(voucherId: nat, retryIndex: nat, result: Option<ResultClass>)

  datatype Config = Config(
    autoClaimEnabled: bool, maxAttempts: nat, retryBaseDelay: nat, diagnosticBudget: nat, minScore: int,
    trustedSource: bool)

  datatype Answer = Classified(class_: ResultClass) | ExecutionError | OtherError

  datatype ClaimEvent =
    | ClaimSucceeded(voucherId: nat, attempt: nat, alreadySaved: bool)
    | ClaimFailed(voucherId: nat, attempt: nat, class_: ResultClass, terminal: bool)

  datatype Outcome =
    | VoucherNotFound
    | NotAttempted(decision: Decision, advice: Option<RetryStep>)
    | Aborted
    | Attempted(attempt: nat, class_: ResultClass, step: RetryStep, event: ClaimEvent)

  /** The attempt log, the session state and the voucher table a claim works on. */
  datatype State = State(attempts: seq<Attempt>, session: SessionState, vouchers: map<nat, Voucher>)

  /** One call: `raced` and `during` are session states observed by others before the gate and during the request. */
  datatype Claim = Claim(
    voucherId: nat, score: Option<int>, excluded: bool, now: Instant,
    raced: Option<SessionState>, during: Option<SessionState>, answer: Answer)

  function AttemptsFor(attempts: seq<Attempt>, voucherId: nat): nat {
    if attempts == [] then 0
    else
      AttemptsFor(attempts[..|attempts| - 1], voucherId)
      + if attempts[|attempts| - 1].voucherId == voucherId then 1 else 0
  }

  predicate WasSuccess(a: Attempt) { a.result.Some? && a.result.value.IsSuccessEquivalent() }

  predicate Succeeded(attempts: seq<Attempt>, voucherId: nat) {
    exists i | 0 <= i < |attempts| :: attempts[i].voucherId == voucherId && WasSuccess(attempts[i])
  }

  function InputsFor(config: Config, s: State, c: Claim): PolicyInputs
    requires c.voucherId in s.vouchers
  {
    PolicyInputs(s.vouchers[c.voucherId], s.session, c.now, Succeeded(s.attempts, c.voucherId),
                 AttemptsFor(s.attempts, c.voucherId), config.maxAttempts, config.autoClaimEnabled, config.minScore,
                 c.score, c.excluded, config.trustedSource)
  }

  function StatusFor(class_: ResultClass, step: RetryStep): Option<VoucherStatus> {
    if class_.IsSuccessEquivalent() then Some(Saved)
    else if class_ == ExhaustedResult then Some(Exhausted)
    else if class_ == ExpiredResult then Some(Expired)
    else if class_ == IneligibleResult then Some(Ineligible)
    else if step == ReviewRequiredStep then Some(ReviewRequired)
    else None
  }

  function BuildEvent(voucherId: nat, attempt: nat, class_: ResultClass, step: RetryStep): ClaimEvent {
    if class_.IsSuccessEquivalent() then ClaimSucceeded(voucherId, attempt, class_ == AlreadySaved)
    else ClaimFailed(voucherId, attempt, class_, step == Terminal || step == ReviewRequiredStep)
  }

  function SessionAfter(class_: ResultClass, step: RetryStep, session: SessionState): SessionState {
    if step != PauseForSession then session
    else if class_ == VerificationRequiredResult then VerificationRequired
    else ExpiredSession
  }

  function ClassOf(answer: Answer): ResultClass
    requires answer != OtherError
  {
    if answer == ExecutionError then TransientFailure else answer.class_
  }

  function WithVoucherStatus(vouchers: map<nat, Voucher>, id: nat, status: Option<VoucherStatus>): map<nat, Voucher> {
    if status.Some? && id in vouchers then vouchers[id := vouchers[id].(status := status.value)] else vouchers
  }

  /** What one call does and answers. */
  function Step(config: Config, s: State, c: Claim): (State, Outcome) {
    if c.voucherId !in s.vouchers then (s, VoucherNotFound)
    else
      var decision := Evaluate(InputsFor(config, s, c));
      if decision != Allow then (s, NotAttempted(decision, None))
      else
        var atGate := s.(session := c.raced.GetOr(s.session));
        if !atGate.session.AllowsClaims() then (atGate, NotAttempted(Defer(None), Some(PauseForSession)))
        else
          var used := AttemptsFor(s.attempts, c.voucherId);
          var sent := atGate.(session := c.during.GetOr(atGate.session));
          if c.answer == OtherError then
            (sent.(attempts := s.attempts + [Attempt(c.voucherId, used, None)]), Aborted)
          else
            var class_ := ClassOf(c.answer);
            var step := NextStep(class_, used, config.maxAttempts, config.retryBaseDelay, config.diagnosticBudget);
            (State(s.attempts + [Attempt(c.voucherId, used, Some(class_))],
                   SessionAfter(class_, step, sent.session),
                   WithVoucherStatus(s.vouchers, c.voucherId, StatusFor(class_, step))),
             Attempted(|s.attempts|, class_, step, BuildEvent(c.voucherId, |s.attempts|, class_, step)))
  }

  class ClaimRepository {
    var attempts: seq<Attempt>

    method BeginAttempt(voucherId: nat, retryIndex: nat) returns (id: nat)
      modifies this
      ensures id == |old(attempts)| && attempts == old(attempts) + [Attempt(voucherId, retryIndex, None)]
    {
      id := |attempts|;
      attempts := attempts + [Attempt(voucherId, retryIndex, None)];
    }

    method CompleteAttempt(id: nat, result: ResultClass)
      modifies this
      ensures attempts
           == if id < |old(attempts)| then old(attempts)[id := old(attempts)[id].(result := Some(result))]
              else old(attempts)
    {
      if id < |attempts| {
        attempts := attempts[id := attempts[id].(result := Some(result))];
      }
    }

    method HasSuccessfulAttempt(voucherId: nat) returns (found: bool)
      ensures found <==> Succeeded(attempts, voucherId)
    {
      found := false;
      for i := 0 to |attempts|
        invariant found <==> Succeeded(attempts[..i], voucherId)
      {
        SucceededStep(attempts, i, voucherId);
        if attempts[i].voucherId == voucherId && WasSuccess(attempts[i]) {
          found := true;
        }
      }
      assert attempts[..|attempts|] == attempts;
    }

    method CountAttempts(voucherId: nat) returns (n: nat)
      ensures n == AttemptsFor(attempts, voucherId)
    {
      n := 0;
      for i := 0 to |attempts|
        invariant n == AttemptsFor(attempts[..i], voucherId)
      {
        assert attempts[..i + 1][..i] == attempts[..i];
        if attempts[i].voucherId == voucherId {
          n := n + 1;
        }
      }
      assert attempts[..|attempts|] == attempts;
    }
  }

  lemma SucceededStep(attempts: seq<Attempt>, i: nat, voucherId: nat)
    requires i < |attempts|
    ensures Succeeded(attempts[..i + 1], voucherId) <==>
            Succeeded(attempts[..i], voucherId)
            || (attempts[i].voucherId == voucherId && WasSuccess(attempts[i]))
  {
    var before, after := attempts[..i], attempts[..i + 1];
    if Succeeded(before, voucherId) {
      var k :| 0 <= k < |before| && before[k].voucherId == voucherId && WasSuccess(before[k]);
      assert after[k] == before[k];
    } else {
      assert forall k | 0 <= k < |before| :: after[k] == before[k];
      assert after[i] == attempts[i];
    }
  }

  class ClaimWorker {
    const config: Config
    const claims: ClaimRepository
    const session: SessionManager
    var vouchers: map<nat, Voucher>

    constructor (config: Config, claims: ClaimRepository, session: SessionManager, vouchers: map<nat, Voucher>)
      ensures this.config == config && this.claims == claims && this.session == session && this.vouchers == vouchers
    {
      this.config, this.claims, this.session, this.vouchers := config, claims, session, vouchers;
    }

    ghost function Contents(): State
      reads this, claims, session
    {
      State(claims.attempts, session.state, vouchers)
    }

    method AttemptClaim(c: Claim) returns (outcome: Outcome)
      requires session.Valid()
      modifies this, claims, session
      ensures session.Valid()
      ensures Contents() == Step(config, old(Contents()), c).0
      ensures outcome == Step(config, old(Contents()), c).1
    {
      if c.voucherId !in vouchers {
        return VoucherNotFound;
      }
      var alreadySucceeded := claims.HasSuccessfulAttempt(c.voucherId);
      var used := claims.CountAttempts(c.voucherId);
      var decision := Evaluate(
        PolicyInputs(vouchers[c.voucherId], session.state, c.now, alreadySucceeded, used, config.maxAttempts,
                     config.autoClaimEnabled, config.minScore, c.score, c.excluded, config.trustedSource));
      if decision != Allow {
        return NotAttempted(decision, None);
      }
      Overheard(c.raced, c.now);
      if !session.state.AllowsClaims() {
        return NotAttempted(Defer(None), Some(PauseForSession));
      }
      var id := claims.BeginAttempt(c.voucherId, used);
      Overheard(c.during, c.now);
      if c.answer == OtherError {
        return Aborted;
      }
      var class_ := if c.answer == ExecutionError then TransientFailure else c.answer.class_;
      claims.CompleteAttempt(id, class_);
      var step := NextStep(class_, used, config.maxAttempts, config.retryBaseDelay, config.diagnosticBudget);
      ApplyStatus(c.voucherId, class_, step);
      if step == PauseForSession {
        var newState := if class_ == VerificationRequiredResult then VerificationRequired else ExpiredSession;
        var _ := session.Observe(newState, "claim response indicated session problem", c.now);
      }
      outcome := Attempted(id, class_, step, BuildEvent(c.voucherId, id, class_, step));
    }

    /** A session observation made elsewhere while this call is under way. */
    method Overheard(observed: Option<SessionState>, now: Instant)
      requires session.Valid()
      modifies session
      ensures session.Valid() && session.state == observed.GetOr(old(session.state))
    {
      if observed.Some? {
        var _ := session.Observe(observed.value, "observed elsewhere", now);
      }
    }

    method ApplyStatus(voucherId: nat, class_: ResultClass, step: RetryStep)
      modifies this
      ensures vouchers == WithVoucherStatus(old(vouchers), voucherId, StatusFor(class_, step))
    {
      var status := StatusFor(class_, step);
      if status.Some? && voucherId in vouchers {
        vouchers := vouchers[voucherId := vouchers[voucherId].(status := status.value)];
      }
    }
  }
}

/** Every sequential run of claims, session observations and voucher updates. */
module ClaimRuns {
  import opened Domain
  import opened ClaimRules
  import opened ClaimService

  datatype Event = Call(claim: Claim) | Observe(state: SessionState) | Store(voucher: Voucher)

  function Next(config: Config, s: State, e: Event): State {
    match e
    case Call(c) => Step(config, s, c).0
    case Observe(state) => s.(session := state)
    case Store(v) => s.(vouchers := s.vouchers[v.id := v])
  }

  function After(config: Config, s: State, events: seq<Event>): State {
    if events == [] then s else Next(config, After(config, s, events[..|events| - 1]), events[|events| - 1])
  }

  /**
   * The log numbers each voucher's attempts 0, 1, 2, ... and continues past none that succeeded or spent the budget.
   */
  ghost predicate LogSound(config: Config, attempts: seq<Attempt>) {
    forall i | 0 <= i < |attempts| ::
      && attempts[i].retryIndex == AttemptsFor(attempts[..i], attempts[i].voucherId) < config.maxAttempts
      && !Succeeded(attempts[..i], attempts[i].voucherId)
  }

  /** A call extends the log by at most one attempt, and only when everything the policy asks for holds. */
  lemma CallExtends(config: Config, s: State, c: Claim)
    ensures var t := Step(config, s, c).0;
            t.attempts == s.attempts
            || (&& |t.attempts| == |s.attempts| + 1 && t.attempts[..|s.attempts|] == s.attempts
                && t.attempts[|s.attempts|].voucherId == c.voucherId
                && t.attempts[|s.attempts|].retryIndex == AttemptsFor(s.attempts, c.voucherId) < config.maxAttempts
                && !Succeeded(s.attempts, c.voucherId)
                && s.session == Healthy && (c.raced.Some? ==> c.raced.value == Healthy))
  {
  }

  lemma SoundExtend(config: Config, attempts: seq<Attempt>, after: seq<Attempt>)
    requires LogSound(config, attempts) && |after| == |attempts| + 1 && after[..|attempts|] == attempts
    requires var a := after[|attempts|];
             && a.retryIndex == AttemptsFor(attempts, a.voucherId) < config.maxAttempts
             && !Succeeded(attempts, a.voucherId)
    ensures LogSound(config, after)
  {
    forall i | 0 <= i < |after|
      ensures after[i].retryIndex == AttemptsFor(after[..i], after[i].voucherId) < config.maxAttempts
      ensures !Succeeded(after[..i], after[i].voucherId)
    {
      if i < |attempts| {
        assert after[i] == attempts[i] && after[..i] == attempts[..i];
      }
    }
  }

  lemma {:induction false} LogStaysSound(config: Config, s: State, events: seq<Event>)
    requires LogSound(config, s.attempts)
    ensures LogSound(config, After(config, s, events).attempts)
  {
    if events != [] {
      var init := After(config, s, events[..|events| - 1]);
      LogStaysSound(config, s, events[..|events| - 1]);
      match events[|events| - 1]
      case Call(c) =>
        CallExtends(config, init, c);
        var t := Step(config, init, c).0;
        if t.attempts != init.attempts { SoundExtend(config, init.attempts, t.attempts); }
      case _ =>
    }
  }

  lemma {:induction false} CountWithin(config: Config, attempts: seq<Attempt>, voucherId: nat)
    requires LogSound(config, attempts)
    ensures AttemptsFor(attempts, voucherId) <= config.maxAttempts
  {
    if attempts != [] {
      var last := |attempts| - 1;
      var init := attempts[..last];
      assert LogSound(config, init) by {
        forall i | 0 <= i < last
          ensures init[i].retryIndex == AttemptsFor(init[..i], init[i].voucherId) < config.maxAttempts
          ensures !Succeeded(init[..i], init[i].voucherId)
        {
          assert init[..i] == attempts[..i] && init[i] == attempts[i];
        }
      }
      CountWithin(config, init, voucherId);
      assert attempts[last].retryIndex == AttemptsFor(attempts[..last], attempts[last].voucherId) < config.maxAttempts;
    }
  }

  /**
   * From an empty log, whatever the executor answers and whatever happens to the session and the vouchers: each
   * voucher is requested at most `maxAttempts` times, its attempts are numbered 0, 1, 2, ..., and none follows one
   * that succeeded.
   */
  lemma AttemptsBounded(config: Config, s: State, events: seq<Event>, voucherId: nat)
    requires s.attempts == []
    ensures var log := After(config, s, events).attempts;
            && AttemptsFor(log, voucherId) <= config.maxAttempts
            && (forall i | 0 <= i < |log| :: log[i].retryIndex == AttemptsFor(log[..i], log[i].voucherId))
            && (forall i, j | 0 <= i < j < |log| && log[i].voucherId == log[j].voucherId :: !WasSuccess(log[i]))
  {
    LogStaysSound(config, s, events);
    var log := After(config, s, events).attempts;
    CountWithin(config, log, voucherId);
    forall i, j | 0 <= i < j < |log| && log[i].voucherId == log[j].voucherId ensures !WasSuccess(log[i]) {
      assert !Succeeded(log[..j], log[j].voucherId);
      assert log[..j][i] == log[i];
    }
  }

  // ----- a paused session stays paused -----

  predicate BringsHealthy(e: Event) {
    match e
    case Observe(state) => state == Healthy
    case Call(c) => c.raced == Some(Healthy) || c.during == Some(Healthy)
    case Store(_) => false
  }

  lemma {:induction false} UnhealthySendsNothing(config: Config, s: State, events: seq<Event>)
    requires s.session != Healthy
    requires forall i | 0 <= i < |events| :: !BringsHealthy(events[i])
    ensures After(config, s, events).attempts == s.attempts && After(config, s, events).session != Healthy
  {
    if events != [] {
      var init := events[..|events| - 1];
      assert forall i | 0 <= i < |init| :: init[i] == events[i];
      UnhealthySendsNothing(config, s, init);
      assert !BringsHealthy(events[|events| - 1]);
      match events[|events| - 1]
      case Call(c) => CallExtends(config, After(config, s, init), c);
      case _ =>
    }
  }

  predicate Paused(o: Outcome) {
    match o
    case Attempted(_, _, step, _) => step == PauseForSession
    case NotAttempted(_, advice) => advice == Some(PauseForSession)
    case _ => false
  }

  /** After a call that answered "pause for the session", nothing is sent until somebody observes a healthy session. */
  lemma PauseHolds(config: Config, s: State, c: Claim, events: seq<Event>)
    requires Paused(Step(config, s, c).1)
    requires forall i | 0 <= i < |events| :: !BringsHealthy(events[i])
    ensures After(config, Step(config, s, c).0, events).attempts == Step(config, s, c).0.attempts
  {
    UnhealthySendsNothing(config, Step(config, s, c).0, events);
  }

  // ----- what a call promises about the next one -----

  lemma AttemptCounted(attempts: seq<Attempt>, a: Attempt)
    ensures AttemptsFor(attempts + [a], a.voucherId) == AttemptsFor(attempts, a.voucherId) + 1
    ensures Succeeded(attempts + [a], a.voucherId) <==> Succeeded(attempts, a.voucherId) || WasSuccess(a)
  {
    assert (attempts + [a])[..|attempts|] == attempts;
    assert (attempts + [a])[..|attempts| + 1] == attempts + [a];
    SucceededStep(attempts + [a], |attempts|, a.voucherId);
  }

  /** A promised retry has an attempt left to spend and waits at most a minute. */
  lemma RetryHasBudget(config: Config, s: State, c: Claim)
    requires config.diagnosticBudget <= config.maxAttempts
    requires Step(config, s, c).1.Attempted? && Step(config, s, c).1.step.RetryAfter?
    ensures AttemptsFor(Step(config, s, c).0.attempts, c.voucherId) < config.maxAttempts
    ensures Step(config, s, c).1.step.delay <= MAX_BACKOFF
  {
    var used := AttemptsFor(s.attempts, c.voucherId);
    var class_ := Step(config, s, c).1.class_;
    RetriesWithinBudgetIff(config.maxAttempts, config.retryBaseDelay, config.diagnosticBudget);
    RetryBounded(class_, used, config.maxAttempts, config.retryBaseDelay, config.diagnosticBudget);
    AttemptCounted(s.attempts, Attempt(c.voucherId, used, Some(class_)));
    assert RetriesWithinBudget(config.maxAttempts, config.retryBaseDelay, config.diagnosticBudget);
    assert NextStep(class_, used, config.maxAttempts, config.retryBaseDelay, config.diagnosticBudget).RetryAfter?;
  }

  lemma AttemptedState(config: Config, s: State, c: Claim)
    requires Step(config, s, c).1.Attempted? && c.during == None
    ensures c.voucherId in s.vouchers && Evaluate(InputsFor(config, s, c)) == Allow
    ensures var t, class_ := Step(config, s, c).0, Step(config, s, c).1.class_;
            && c.voucherId in t.vouchers && t.vouchers[c.voucherId].terms == s.vouchers[c.voucherId].terms
            && t.attempts == s.attempts + [Attempt(c.voucherId, AttemptsFor(s.attempts, c.voucherId), Some(class_))]
            && (t.session == Healthy <==> class_.RetryClassOf() != PauseSession)
  {
  }

  /**
   * The policy never reads the recorded voucher status. Asked again in the same circumstances right after an
   * attempt, it refuses only if that attempt succeeded, paused the session or spent the budget: a voucher just
   * found exhausted, expired or ineligible is requested again.
   */
  lemma RepeatAllowedIff(config: Config, s: State, c: Claim)
    requires Step(config, s, c).1.Attempted? && c.during == None
    ensures var t, class_ := Step(config, s, c).0, Step(config, s, c).1.class_;
            && c.voucherId in t.vouchers
            && (Evaluate(InputsFor(config, t, c)) == Allow <==>
                !class_.IsSuccessEquivalent() && class_.RetryClassOf() != PauseSession
                && AttemptsFor(s.attempts, c.voucherId) + 1 < config.maxAttempts)
  {
    var t, class_ := Step(config, s, c).0, Step(config, s, c).1.class_;
    AttemptedState(config, s, c);
    AttemptCounted(s.attempts, Attempt(c.voucherId, AttemptsFor(s.attempts, c.voucherId), Some(class_)));
    AllowedIff(InputsFor(config, s, c));
    AllowedIff(InputsFor(config, t, c));
  }
}
