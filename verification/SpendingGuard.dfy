/**
 * The write-ahead spending guard of backend/src/app/agent_capture/provider_evaluation.py: every statement
 * is one step, so a crash may fall between any two of them and leaves only `disk` behind, and any
 * `persist` may raise while the process goes on.
 */
module SpendingGuard {
  import opened Options
  import opened Sums
  import opened Utf8

  const MILLION := 1000000.0

  // --- the verified route and the price of one attempt

  datatype Limits = Limits(
    model: string, maximumInputTokens: nat, maxOutputTokens: nat, inputUsdPerMillion: real, outputUsdPerMillion: real)
  {
    predicate Valid() {
      maximumInputTokens > 0 && inputUsdPerMillion > 0.0 && outputUsdPerMillion > 0.0
    }
  }

  /** What `n` input and `m` output tokens cost at the receipt's rates. */
  function Price(l: Limits, n: nat, m: nat): real {
    (Times(n as real, l.inputUsdPerMillion) + Times(m as real, l.outputUsdPerMillion)) / MILLION
  }

  function PerAttempt(l: Limits): real {
    Price(l, l.maximumInputTokens, l.maxOutputTokens)
  }

  datatype Request = Request(model: string, maxTokens: nat, messages: seq<string>)

  function Bytes(messages: seq<string>): nat {
    if messages == [] then 0 else Bytes(messages[..|messages| - 1]) + ByteLength(messages[|messages| - 1])
  }

  /** The route, token and prompt-size conditions of `before_transport`. */
  predicate OnRoute(l: Limits, request: Request) {
    && request.model == l.model && request.maxTokens <= l.maxOutputTokens
    && Bytes(request.messages) <= l.maximumInputTokens
  }

  datatype Answer = Answer(model: string, fallbackUsed: bool, inputTokens: nat, outputTokens: nat)

  /** The condition on an answer that `complete` returns. */
  predicate WithinCeilings(l: Limits, answer: Answer) {
    && answer.model == l.model && !answer.fallbackUsed
    && answer.inputTokens <= l.maximumInputTokens && answer.outputTokens <= l.maxOutputTokens
  }

  /** An answer that is returned cost no more than the attempt was charged. */
  lemma AnswerWithinAttempt(l: Limits, answer: Answer)
    requires l.Valid() && WithinCeilings(l, answer)
    ensures 0.0 <= Price(l, answer.inputTokens, answer.outputTokens) <= PerAttempt(l)
    ensures PerAttempt(l) > 0.0
  {
    TimesNonNegative(answer.inputTokens as real, l.inputUsdPerMillion);
    TimesNonNegative(answer.outputTokens as real, l.outputUsdPerMillion);
    TimesMonotone(answer.inputTokens as real, l.maximumInputTokens as real, l.inputUsdPerMillion);
    TimesMonotone(answer.outputTokens as real, l.maxOutputTokens as real, l.outputUsdPerMillion);
    assert Times(1.0, l.inputUsdPerMillion) > 0.0;
    TimesMonotone(1.0, l.maximumInputTokens as real, l.inputUsdPerMillion);
    TimesNonNegative(l.maxOutputTokens as real, l.outputUsdPerMillion);
    hide Times;
  }

  // --- the guard, statement by statement

  datatype AttemptState = TransportMayStart | ResponseReceived | ErrorOrAmbiguous

  datatype Attempt = Attempt(state: AttemptState, admitted: bool, invoked: bool)

  datatype Reservation = Reservation(caseId: string, reservedUsd: real, attempts: seq<Attempt>, completed: bool)

  datatype Report = Report(reservations: seq<Reservation>, upperBound: real)

  /** `self.current`: nothing, a record not yet in the report, or the last record of the report. */
  datatype Current = Idle | Detached(reservation: Reservation) | Listed

  /**
   * The statement about to run. `Ready` is between calls; `Stranded` is between calls after a `finish` whose
   * `persist` raised, which leaves the case open in memory with its unused attempts already returned.
   */
  datatype Pc =
    | Ready | Stranded
    | BeginAppend | BeginCharge | BeginBound | BeginPersist
    | AttemptPersist | AttemptAdmit | MarkInvoked | Transport | Settle | SettlePersist
    | FinishReserved | FinishState | FinishBound | FinishPersist | FinishClear

  /**
   * `started` counts the transports that may have reached the provider; `stale` says that the latest `persist`
   * raised before it replaced the file.
   */
  datatype Guard = Guard(
    limits: Limits, perAttempt: real, cap: real, charged: real, current: Current, report: Report, disk: Report,
    started: nat, stale: bool, pc: Pc)

  /** How a `persist` ends: it may raise before or after the file is replaced. */
  datatype Io = Saves | Raises(replaced: bool)

  /** The next call when ready, the outcome of a transport when one settles, the outcome of a `persist`. */
  datatype Choice =
    | Begin(caseId: string) | Complete(request: Request) | Finish | Settles(answered: bool) | Persists(io: Io)

  function IoOf(c: Choice): Io {
    if c.Persists? then c.io else Saves
  }

  function Persisted(g: Guard, io: Io): Guard {
    if io == Raises(false) then g.(stale := true) else g.(disk := g.report, stale := false)
  }

  function Last(r: Report): Reservation
    requires r.reservations != []
  {
    r.reservations[|r.reservations| - 1]
  }

  function WithLast(r: Report, last: Reservation): Report
    requires r.reservations != []
  {
    r.(reservations := r.reservations[|r.reservations| - 1 := last])
  }

  /** The fields a caller sets on the attempt it holds. */
  datatype Mark = Admitted | Invoked | Outcome(state: AttemptState)

  function Marked(a: Attempt, mark: Mark): Attempt {
    match mark
    case Admitted => a.(admitted := true)
    case Invoked => a.(invoked := true)
    case Outcome(state) => a.(state := state)
  }

  function WithLastAttempt(r: Report, mark: Mark): Report {
    if r.reservations == [] || Last(r).attempts == [] then r
    else
      var attempts := Last(r).attempts;
      var n := |attempts| - 1;
      WithLast(r, Last(r).(attempts := attempts[n := Marked(attempts[n], mark)]))
  }

  const FRESH_ATTEMPT := Attempt(TransportMayStart, false, false)

  function WithAttempt(r: Report): Report
    requires r.reservations != []
  {
    WithLast(r, Last(r).(attempts := Last(r).attempts + [FRESH_ATTEMPT]))
  }

  predicate Open(g: Guard) {
    g.current.Listed? && g.report.reservations != []
  }

  /** A call made between calls; one that is refused does nothing. */
  function Call(g: Guard, c: Choice): Guard {
    match c
    case Begin(caseId) =>
      if g.current != Idle || g.charged + Times(2.0, g.perAttempt) > g.cap then g
      else g.(current := Detached(Reservation(caseId, Times(2.0, g.perAttempt), [], false)), pc := BeginAppend)
    case Complete(request) =>
      if !Open(g) || |Last(g.report).attempts| >= 2 || !OnRoute(g.limits, request) then g
      else g.(report := WithAttempt(g.report), pc := AttemptPersist)
    case Finish =>
      if !Open(g) then g
      else g.(charged := g.charged - Times((2 - |Last(g.report).attempts|) as real, g.perAttempt), pc := FinishReserved)
    case _ => g
  }

  /** One statement of `begin`, `before_transport`, `complete` or `finish`. */
  function Step(g: Guard, c: Choice): Guard {
    match g.pc
    case Ready => Call(g, c)
    case Stranded => Call(g, c)
    case BeginAppend =>
      if g.current.Detached? then
        g.(report := g.report.(reservations := g.report.reservations + [g.current.reservation]),
           current := Listed, pc := BeginCharge)
      else g
    case BeginCharge => g.(charged := g.charged + Times(2.0, g.perAttempt), pc := BeginBound)
    case BeginBound => g.(report := g.report.(upperBound := g.charged), pc := BeginPersist)
    case BeginPersist => Persisted(g, IoOf(c)).(pc := Ready)
    case AttemptPersist => Persisted(g, IoOf(c)).(pc := if IoOf(c).Saves? then AttemptAdmit else Ready)
    case AttemptAdmit => g.(report := WithLastAttempt(g.report, Admitted), pc := MarkInvoked)
    case MarkInvoked => g.(report := WithLastAttempt(g.report, Invoked), pc := Transport)
    case Transport => g.(started := g.started + 1, pc := Settle)
    case Settle =>
      var state := if c == Settles(true) then ResponseReceived else ErrorOrAmbiguous;
      g.(report := WithLastAttempt(g.report, Outcome(state)), pc := SettlePersist)
    case SettlePersist => Persisted(g, IoOf(c)).(pc := Ready)
    case FinishReserved =>
      if !Open(g) then g
      else g.(report := WithLast(g.report, Last(g.report).(
                reservedUsd := Times(|Last(g.report).attempts| as real, g.perAttempt))), pc := FinishState)
    case FinishState =>
      if !Open(g) then g
      else g.(report := WithLast(g.report, Last(g.report).(completed := true)), pc := FinishBound)
    case FinishBound => g.(report := g.report.(upperBound := g.charged), pc := FinishPersist)
    case FinishPersist => Persisted(g, IoOf(c)).(pc := if IoOf(c).Saves? then FinishClear else Stranded)
    case FinishClear => g.(current := Idle, pc := Ready)
  }

  /**
   * A call that keeps the write-ahead promise: after a `finish` whose `persist` raised, an open case with an
   * unused attempt must be left alone.
   */
  predicate SafeCall(g: Guard, c: Choice) {
    g.pc.Stranded? && Open(g) && |Last(g.report).attempts| < 2 ==>
      !c.Finish? && !(c.Complete? && OnRoute(g.limits, c.request))
  }

  // --- counting attempts and transports

  function Attempts(rs: seq<Reservation>): nat {
    if rs == [] then 0 else Attempts(rs[..|rs| - 1]) + |rs[|rs| - 1].attempts|
  }

  /** The attempts marked as handed to the provider. */
  function SentIn(attempts: seq<Attempt>): (n: nat)
    ensures n <= |attempts|
  {
    if attempts == [] then 0
    else SentIn(attempts[..|attempts| - 1]) + (if attempts[|attempts| - 1].invoked then 1 else 0)
  }

  function Sent(rs: seq<Reservation>): (n: nat)
    ensures n <= Attempts(rs)
  {
    if rs == [] then 0 else Sent(rs[..|rs| - 1]) + SentIn(rs[|rs| - 1].attempts)
  }

  function Front(r: Report): seq<Reservation> {
    if r.reservations == [] then [] else r.reservations[..|r.reservations| - 1]
  }

  lemma {:induction false} CountAppend(rs: seq<Reservation>, r: Reservation)
    ensures Attempts(rs + [r]) == Attempts(rs) + |r.attempts| && Sent(rs + [r]) == Sent(rs) + SentIn(r.attempts)
  {
    assert (rs + [r])[..|rs|] == rs;
  }

  /** Counts split into the earlier cases and the last one. */
  lemma {:induction false} CountSplit(r: Report)
    requires r.reservations != []
    ensures Attempts(r.reservations) == Attempts(Front(r)) + |Last(r).attempts|
    ensures Sent(r.reservations) == Sent(Front(r)) + SentIn(Last(r).attempts)
  {
  }

  lemma {:induction false} FrontKept(r: Report, last: Reservation)
    requires r.reservations != []
    ensures WithLast(r, last).reservations != [] && Front(WithLast(r, last)) == Front(r)
    ensures Last(WithLast(r, last)) == last && WithLast(r, last).upperBound == r.upperBound
  {
    var rs := WithLast(r, last).reservations;
    assert rs[..|rs| - 1] == Front(r);
  }

  /** Appending an attempt adds one to the attempts and none to the transports. */
  lemma {:induction false} AttemptAdded(r: Report)
    requires r.reservations != []
    ensures var after := WithAttempt(r);
            && after.reservations != [] && Front(after) == Front(r) && after.upperBound == r.upperBound
            && |Last(after).attempts| == |Last(r).attempts| + 1 && !LastInvoked(after)
            && Attempts(after.reservations) == Attempts(r.reservations) + 1
            && Sent(after.reservations) == Sent(r.reservations)
  {
    var attempts := Last(r).attempts + [FRESH_ATTEMPT];
    assert attempts[..|attempts| - 1] == Last(r).attempts;
    FrontKept(r, Last(r).(attempts := attempts));
    CountSplit(r);
    CountSplit(WithAttempt(r));
    hide Attempts, Sent, WithLast;
  }

  /** The last attempt of the last case was handed to the provider. */
  predicate LastInvoked(r: Report) {
    r.reservations != [] && Last(r).attempts != [] && Last(r).attempts[|Last(r).attempts| - 1].invoked
  }

  lemma {:induction false} MarkCounts(attempts: seq<Attempt>, mark: Mark)
    requires attempts != []
    ensures var n := |attempts| - 1; var after := attempts[n := Marked(attempts[n], mark)];
            SentIn(after) == SentIn(attempts) + (if mark == Invoked && !attempts[n].invoked then 1 else 0)
  {
    var n := |attempts| - 1;
    var after := attempts[n := Marked(attempts[n], mark)];
    assert after[..n] == attempts[..n];
  }

  /** Marking the last attempt changes no count but, the first time it is invoked, that of the transports. */
  lemma {:induction false} MarkKeeps(r: Report, mark: Mark)
    requires r.reservations != [] && Last(r).attempts != []
    ensures var after := WithLastAttempt(r, mark);
            && after.reservations != [] && Front(after) == Front(r) && after.upperBound == r.upperBound
            && |Last(after).attempts| == |Last(r).attempts|
            && LastInvoked(after) == (mark == Invoked || LastInvoked(r))
            && Attempts(after.reservations) == Attempts(r.reservations)
            && Sent(after.reservations) == Sent(r.reservations) + (if mark == Invoked && !LastInvoked(r) then 1 else 0)
  {
    var attempts := Last(r).attempts;
    var n := |attempts| - 1;
    var last := Last(r).(attempts := attempts[n := Marked(attempts[n], mark)]);
    MarkCounts(attempts, mark);
    FrontKept(r, last);
    CountSplit(r);
    CountSplit(WithLast(r, last));
    hide Attempts, Sent, SentIn, WithLast;
  }

  /** Changing the other fields of the last case changes no count. */
  lemma {:induction false} RecordKeeps(r: Report, last: Reservation)
    requires r.reservations != [] && last.attempts == Last(r).attempts
    ensures var after := WithLast(r, last);
            && after.reservations != [] && Front(after) == Front(r) && after.upperBound == r.upperBound
            && Last(after) == last
            && Attempts(after.reservations) == Attempts(r.reservations)
            && Sent(after.reservations) == Sent(r.reservations)
  {
    FrontKept(r, last);
    CountSplit(r);
    CountSplit(WithLast(r, last));
    hide Attempts, Sent, WithLast;
  }

  // --- what holds at every statement

  /** The cost of `n` worst-case attempts. */
  function Cost(g: Guard, n: nat): real {
    Times(n as real, g.perAttempt)
  }

  /** The last persisted report accounts for every transport that may have started. */
  predicate Covered(g: Guard) {
    && g.disk.upperBound >= Cost(g, g.started) && Attempts(g.disk.reservations) >= g.started
    && g.disk.upperBound <= g.cap && g.charged <= g.cap
  }

  /** The open case is the last record, with at most two attempts, and its two attempts are charged. */
  predicate OpenCase(g: Guard) {
    && Open(g) && |Last(g.report).attempts| <= 2
    && g.charged == Cost(g, Attempts(Front(g.report)) + 2)
  }

  /** The open case has just been listed. */
  predicate Opening(g: Guard) {
    Open(g) && Last(g.report).attempts == [] && g.started == Sent(g.report.reservations)
  }

  /** The attempt being made is on disk. */
  predicate Attempting(g: Guard) {
    && OpenCase(g) && |Last(g.report).attempts| >= 1 && g.report.upperBound == g.disk.upperBound == g.charged
    && Attempts(g.disk.reservations) == Attempts(g.report.reservations)
  }

  /** The unused attempts have been returned in memory. */
  predicate Closing(g: Guard) {
    && Open(g) && g.started == Sent(g.report.reservations) && |Last(g.report).attempts| <= 2
    && g.charged == Cost(g, Attempts(g.report.reservations))
  }

  /** Between calls. */
  predicate Resting(g: Guard) {
    && g.started == Sent(g.report.reservations) && g.report.upperBound == g.charged
    && (g.current.Idle? ==> g.charged == Cost(g, Attempts(g.report.reservations)))
    && (!g.stale ==> g.disk == g.report)
  }

  predicate AtStatement(g: Guard) {
    match g.pc
    case Ready => Resting(g) && (g.current.Idle? || OpenCase(g))
    case Stranded => Resting(g) && Closing(g)
    case BeginAppend =>
      && g.current.Detached? && g.current.reservation.attempts == [] && g.started == Sent(g.report.reservations)
      && g.charged == Cost(g, Attempts(g.report.reservations)) && g.charged + Cost(g, 2) <= g.cap
    case BeginCharge =>
      Opening(g) && g.charged == Cost(g, Attempts(Front(g.report))) && g.charged + Cost(g, 2) <= g.cap
    case BeginBound => Opening(g) && OpenCase(g)
    case BeginPersist => Opening(g) && OpenCase(g) && g.report.upperBound == g.charged
    case AttemptPersist =>
      && OpenCase(g) && |Last(g.report).attempts| >= 1 && !LastInvoked(g.report) && g.report.upperBound == g.charged
      && g.started == Sent(g.report.reservations) && g.started + 1 <= Attempts(g.report.reservations)
    case AttemptAdmit => Attempting(g) && !LastInvoked(g.report) && g.started == Sent(g.report.reservations)
    case MarkInvoked => Attempting(g) && !LastInvoked(g.report) && g.started == Sent(g.report.reservations)
    case Transport => Attempting(g) && g.started + 1 == Sent(g.report.reservations)
    case Settle => Attempting(g) && g.started == Sent(g.report.reservations)
    case SettlePersist => Attempting(g) && g.started == Sent(g.report.reservations)
    case FinishReserved => Closing(g)
    case FinishState => Closing(g)
    case FinishBound => Closing(g)
    case FinishPersist => Closing(g) && g.report.upperBound == g.charged
    case FinishClear => Closing(g) && g.report.upperBound == g.charged && g.disk == g.report
  }

  predicate Inv(g: Guard) {
    g.limits.Valid() && g.perAttempt == PerAttempt(g.limits) && g.perAttempt > 0.0 && Covered(g) && AtStatement(g)
  }

  lemma {:induction false} CostAdds(g: Guard, a: nat, b: nat)
    requires g.perAttempt > 0.0
    ensures Cost(g, a + b) == Cost(g, a) + Cost(g, b) && Cost(g, b) >= 0.0 && (b > 0 ==> Cost(g, b) > 0.0)
    ensures Cost(g, 0) == 0.0
  {
    TimesAdd(a as real, b as real, g.perAttempt);
    TimesNonNegative(b as real, g.perAttempt);
  }

  lemma {:induction false} CostMonotone(g: Guard, a: nat, b: nat)
    requires g.perAttempt > 0.0 && a <= b
    ensures Cost(g, a) <= Cost(g, b)
  {
    CostAdds(g, a, b - a);
  }

  lemma {:induction false} OpenCharged(g: Guard)
    requires g.perAttempt > 0.0 && OpenCase(g)
    ensures g.charged >= Cost(g, Attempts(g.report.reservations))
  {
    CountSplit(g.report);
    CostMonotone(g, Attempts(g.report.reservations), Attempts(Front(g.report)) + 2);
  }

  /** A `persist` of a report that charges all its attempts keeps every started transport covered. */
  lemma {:induction false} PersistCovers(g: Guard, io: Io)
    requires g.perAttempt > 0.0 && Covered(g) && g.report.upperBound == g.charged
    requires g.started <= Attempts(g.report.reservations) && g.charged >= Cost(g, Attempts(g.report.reservations))
    ensures Covered(Persisted(g, io))
  {
    CostMonotone(g, g.started, Attempts(g.report.reservations));
    hide Times, Attempts;
  }

  // --- every statement keeps the invariant

  lemma {:induction false} BeginCallKeeps(g: Guard, c: Choice)
    requires Inv(g) && g.pc.Ready? && c.Begin?
    ensures Inv(Call(g, c))
  {
    hide Times, Attempts, Sent, PerAttempt;
  }

  lemma {:induction false} CompleteCallKeeps(g: Guard, c: Choice)
    requires Inv(g) && g.pc.Ready? && c.Complete?
    ensures Inv(Call(g, c))
  {
    hide Times, PerAttempt, OnRoute, Attempts, Sent;
    if Call(g, c) != g {
      AddingKeeps(g);
    }
  }

  lemma {:induction false} AddingKeeps(g: Guard)
    requires Inv(g) && g.pc.Ready? && Open(g) && |Last(g.report).attempts| < 2
    ensures Inv(g.(report := WithAttempt(g.report), pc := AttemptPersist))
  {
    hide Times, PerAttempt, Attempts, Sent, WithAttempt, LastInvoked, Front;
    AttemptAdded(g.report);
    assert Sent(g.report.reservations) <= Attempts(g.report.reservations);
  }

  /** Returning the unused attempts of an open case leaves exactly its attempts charged. */
  lemma {:induction false} FinishCharge(g: Guard)
    requires g.perAttempt > 0.0 && OpenCase(g)
    ensures var back := Times((2 - |Last(g.report).attempts|) as real, g.perAttempt);
            g.charged - back == Cost(g, Attempts(g.report.reservations)) && back >= 0.0
  {
    var used := |Last(g.report).attempts|;
    CountSplit(g.report);
    CostAdds(g, Attempts(Front(g.report)) + used, 2 - used);
    hide Attempts, Times, Front, Last;
  }

  lemma {:induction false} FinishCallKeeps(g: Guard, c: Choice)
    requires Inv(g) && g.pc.Ready? && c.Finish?
    ensures Inv(Call(g, c))
  {
    hide Times, Attempts, Sent, PerAttempt, Front;
    if Call(g, c) != g {
      FinishCharge(g);
    }
  }

  /** Finishing again a case whose two attempts are used returns nothing. */
  lemma {:induction false} FinishAgainKeeps(g: Guard, c: Choice)
    requires Inv(g) && g.pc.Stranded? && c.Finish? && SafeCall(g, c)
    ensures Inv(Call(g, c))
  {
    CostAdds(g, 0, 0);
    assert Times(0.0, g.perAttempt) == 0.0;
    hide Times, Attempts, Sent, PerAttempt, Front;
  }

  lemma {:induction false} StrandedKeeps(g: Guard, c: Choice)
    requires Inv(g) && g.pc.Stranded? && SafeCall(g, c) && !c.Finish?
    ensures Call(g, c) == g
  {
    hide Times, Attempts, Sent, PerAttempt, OnRoute;
  }

  lemma {:induction false} ListedCounts(r: Report, added: Reservation)
    requires added.attempts == []
    ensures var after := r.(reservations := r.reservations + [added]);
            && Front(after) == r.reservations && Last(after) == added
            && Attempts(after.reservations) == Attempts(r.reservations)
            && Sent(after.reservations) == Sent(r.reservations)
  {
    CountAppend(r.reservations, added);
    hide Attempts, Sent;
  }

  lemma {:induction false} BeginAppendKeeps(g: Guard, c: Choice)
    requires Inv(g) && g.pc.BeginAppend?
    ensures Inv(Step(g, c))
  {
    hide Times, Attempts, Sent, PerAttempt, Front, Last;
    ListedCounts(g.report, g.current.reservation);
  }

  lemma {:induction false} BeginKeeps(g: Guard, c: Choice)
    requires Inv(g) && (g.pc.BeginCharge? || g.pc.BeginBound?)
    ensures Inv(Step(g, c))
  {
    CostAdds(g, Attempts(Front(g.report)), 2);
    hide Times, Attempts, Sent, PerAttempt;
  }

  lemma {:induction false} BeginPersistKeeps(g: Guard, c: Choice)
    requires Inv(g) && g.pc.BeginPersist?
    ensures Inv(Step(g, c))
  {
    hide Times, Attempts, Sent, PerAttempt, Front, Last;
    OpenCharged(g);
    PersistCovers(g, IoOf(c));
    hide Covered;
  }

  lemma {:induction false} AttemptPersistKeeps(g: Guard, c: Choice)
    requires Inv(g) && g.pc.AttemptPersist?
    ensures Inv(Step(g, c))
  {
    hide Times, Attempts, Sent, PerAttempt, Front, Last, LastInvoked;
    OpenCharged(g);
    PersistCovers(g, IoOf(c));
  }

  lemma {:induction false} SettlePersistKeeps(g: Guard, c: Choice)
    requires Inv(g) && g.pc.SettlePersist?
    ensures Inv(Step(g, c))
  {
    hide Times, Attempts, Sent, PerAttempt, Front, Last;
    OpenCharged(g);
    PersistCovers(g, IoOf(c));
  }

  /** Marking the attempt on hand keeps what is known of it. */
  lemma {:induction false} MarkingKeeps(g: Guard, mark: Mark)
    requires g.perAttempt > 0.0 && Attempting(g)
    ensures var after := g.(report := WithLastAttempt(g.report, mark));
            && Attempting(after) && LastInvoked(after.report) == (mark == Invoked || LastInvoked(g.report))
            && Sent(after.report.reservations) ==
               Sent(g.report.reservations) + (if mark == Invoked && !LastInvoked(g.report) then 1 else 0)
  {
    hide Times, Attempts, Sent, PerAttempt, WithLastAttempt, LastInvoked;
    MarkKeeps(g.report, mark);
  }

  lemma {:induction false} AttemptKeeps(g: Guard, c: Choice)
    requires Inv(g) && (g.pc.AttemptAdmit? || g.pc.MarkInvoked? || g.pc.Settle?)
    ensures Inv(Step(g, c))
  {
    hide Times, Attempts, Sent, PerAttempt, WithLastAttempt, LastInvoked, Front, Last;
    var mark := if g.pc.AttemptAdmit? then Admitted else if g.pc.MarkInvoked? then Invoked
                else Outcome(if c == Settles(true) then ResponseReceived else ErrorOrAmbiguous);
    MarkingKeeps(g, mark);
    assert Step(g, c).report == WithLastAttempt(g.report, mark);
  }

  lemma {:induction false} TransportKeeps(g: Guard, c: Choice)
    requires Inv(g) && g.pc.Transport?
    ensures Inv(Step(g, c))
  {
    OpenCharged(g);
    CostMonotone(g, g.started + 1, Attempts(g.report.reservations));
    hide Times, Attempts, Sent, PerAttempt;
  }

  lemma {:induction false} FinishRecordKeeps(g: Guard, c: Choice)
    requires Inv(g) && (g.pc.FinishReserved? || g.pc.FinishState?)
    ensures Inv(Step(g, c))
  {
    hide Times, Attempts, Sent, PerAttempt, WithLast;
    var last := Last(g.report);
    if g.pc.FinishReserved? {
      RecordKeeps(g.report, last.(reservedUsd := Times(|last.attempts| as real, g.perAttempt)));
    } else {
      RecordKeeps(g.report, last.(completed := true));
    }
  }

  lemma {:induction false} FinishBoundKeeps(g: Guard, c: Choice)
    requires Inv(g) && (g.pc.FinishBound? || g.pc.FinishClear?)
    ensures Inv(Step(g, c))
  {
    hide Times, Attempts, Sent, PerAttempt;
  }

  lemma {:induction false} FinishPersistKeeps(g: Guard, c: Choice)
    requires Inv(g) && g.pc.FinishPersist?
    ensures Inv(Step(g, c))
  {
    hide Times, Attempts, Sent, PerAttempt, Last, Front;
    assert Sent(g.report.reservations) <= Attempts(g.report.reservations);
    PersistCovers(g, IoOf(c));
    hide Covered;
  }

  lemma {:induction false} StepKeeps(g: Guard, c: Choice)
    requires Inv(g) && SafeCall(g, c)
    ensures Inv(Step(g, c))
  {
    hide Inv;
    match g.pc {
      case Ready =>
        hide Call, SafeCall;
        if c.Begin? {
          BeginCallKeeps(g, c);
        } else if c.Complete? {
          CompleteCallKeeps(g, c);
        } else if c.Finish? {
          FinishCallKeeps(g, c);
        } else {
          OtherCalls(g, c);
        }
      case Stranded =>
        hide Call, SafeCall;
        if c.Finish? {
          FinishAgainKeeps(g, c);
        } else {
          StrandedKeeps(g, c);
        }
      case BeginAppend => BeginAppendKeeps(g, c);
      case BeginCharge => BeginKeeps(g, c);
      case BeginBound => BeginKeeps(g, c);
      case Transport => TransportKeeps(g, c);
      case FinishReserved => FinishRecordKeeps(g, c);
      case FinishState => FinishRecordKeeps(g, c);
      case FinishBound => FinishBoundKeeps(g, c);
      case FinishPersist => FinishPersistKeeps(g, c);
      case FinishClear => FinishBoundKeeps(g, c);
      case BeginPersist => BeginPersistKeeps(g, c);
      case AttemptPersist => AttemptPersistKeeps(g, c);
      case SettlePersist => SettlePersistKeeps(g, c);
      case _ => AttemptKeeps(g, c);
    }
  }

  lemma {:induction false} OtherCalls(g: Guard, c: Choice)
    requires !c.Begin? && !c.Complete? && !c.Finish?
    ensures Call(g, c) == g
  {
  }

  // --- runs, statement by statement

  /** One statement of a caller that leaves a stranded case alone, as the evaluation does by stopping. */
  ghost predicate Follows(g: Guard, g': Guard) {
    exists c :: SafeCall(g, c) && g' == Step(g, c)
  }

  ghost predicate Steps(states: seq<Guard>) {
    forall i :: 0 <= i < |states| - 1 ==> Follows(states[i], states[i + 1])
  }

  function NewGuard(limits: Limits, cap: real): Guard {
    Guard(limits, PerAttempt(limits), cap, 0.0, Idle, Report([], 0.0), Report([], 0.0), 0, false, Ready)
  }

  /** A newly constructed guard. */
  predicate Fresh(g: Guard) {
    g.limits.Valid() && 0.0 < g.cap && g == NewGuard(g.limits, g.cap)
  }

  lemma {:induction false} FreshKeeps(g: Guard)
    requires Fresh(g)
    ensures Inv(g)
  {
    AnswerWithinAttempt(g.limits, Answer(g.limits.model, false, 0, 0));
    CostAdds(g, 0, 0);
  }

  lemma {:induction false} RunKeeps(states: seq<Guard>, n: nat)
    requires Steps(states) && n < |states| && Fresh(states[0])
    ensures Inv(states[n])
  {
    hide Inv, Step, SafeCall;
    if n == 0 {
      FreshKeeps(states[0]);
    } else {
      RunKeeps(states, n - 1);
      var i := n - 1;
      assert Follows(states[i], states[i + 1]);
      var c :| SafeCall(states[i], c) && states[i + 1] == Step(states[i], c);
      StepKeeps(states[i], c);
    }
  }

  /**
   * However calls are made, whichever `persist` raises and wherever a crash falls: the charge never exceeds the
   * cap, and the last persisted report bounds the cost, and lists an attempt, for every transport that may have
   * started.
   */
  lemma {:induction false} CrashSafe(states: seq<Guard>, n: nat)
    requires Steps(states) && n < |states| && Fresh(states[0])
    ensures states[n].charged <= states[n].cap
    ensures states[n].disk.upperBound >= Cost(states[n], states[n].started)
    ensures Attempts(states[n].disk.reservations) >= states[n].started
    ensures states[n].disk.upperBound <= states[n].cap
  {
    hide Steps, Fresh, AtStatement, Attempts, Times, PerAttempt;
    RunKeeps(states, n);
  }

  /**
   * Between calls the charge is exact: listed attempts, and two for a case that is still open and was not
   * returned; the transports are exactly the attempts marked as invoked; and memory is on disk unless the latest
   * `persist` raised before it replaced the file.
   */
  lemma {:induction false} ChargeExact(states: seq<Guard>, n: nat)
    requires Steps(states) && n < |states| && Fresh(states[0]) && (states[n].pc.Ready? || states[n].pc.Stranded?)
    ensures var g := states[n];
            && g.charged == Cost(g, if g.current.Listed? && g.pc.Ready? then Attempts(Front(g.report)) + 2
                                    else Attempts(g.report.reservations))
            && g.started == Sent(g.report.reservations) && g.report.upperBound == g.charged
            && (!g.stale ==> g.disk == g.report)
  {
    hide Steps, Fresh, Inv;
    RunKeeps(states, n);
    RestExact(states[n]);
  }

  lemma {:induction false} RestExact(g: Guard)
    requires Inv(g) && (g.pc.Ready? || g.pc.Stranded?)
    ensures g.charged == Cost(g, if g.current.Listed? && g.pc.Ready? then Attempts(Front(g.report)) + 2
                                 else Attempts(g.report.reservations))
    ensures g.started == Sent(g.report.reservations) && g.report.upperBound == g.charged
    ensures !g.stale ==> g.disk == g.report
  {
    hide Times, Attempts, Sent, PerAttempt, Covered;
  }

  // --- a finish whose persist raised

  /**
   * After a `finish` whose `persist` raised, a call keeps the listed attempts charged if and only if it leaves an
   * open case with unused attempts alone.
   */
  lemma {:induction false} StrandedChargeIff(g: Guard, c: Choice)
    requires Inv(g) && g.pc.Stranded?
    ensures var after := Step(g, c);
            after.charged >= Cost(after, Attempts(after.report.reservations)) <==> SafeCall(g, c)
  {
    hide Times, Attempts, Sent, PerAttempt, WithAttempt, OnRoute, Front;
    if SafeCall(g, c) {
      if c.Finish? {
        FinishAgainKeeps(g, c);
      } else {
        StrandedKeeps(g, c);
      }
    } else if c.Finish? {
      var unused := 2 - |Last(g.report).attempts|;
      CostAdds(g, 0, unused);
      assert Step(g, c).charged == g.charged - Cost(g, unused);
    } else {
      AttemptAdded(g.report);
      CostAdds(g, Attempts(g.report.reservations), 1);
    }
  }

  /** The state after a sequence of statements of any caller. */
  function After(g: Guard, choices: seq<Choice>): Guard
    decreases |choices|
  {
    if choices == [] then g else After(Step(g, choices[0]), choices[1..])
  }

  lemma {:induction false} AfterStep(g: Guard, c: Choice, rest: seq<Choice>)
    ensures After(g, [c] + rest) == After(Step(g, c), rest)
  {
    hide Step;
    assert ([c] + rest)[1..] == rest;
  }

  /** The five statements from the call to the transport, every `persist` succeeding. */
  function Sending(request: Request): seq<Choice> {
    [Complete(request)] + ([Finish] + ([Finish] + ([Finish] + ([Finish] + []))))
  }

  lemma {:induction false} SendingSteps(g: Guard, request: Request)
    requires g.pc.Stranded? && Open(g) && |Last(g.report).attempts| < 2 && OnRoute(g.limits, request)
    ensures var after := After(g, Sending(request));
            && after.started == g.started + 1 && after.perAttempt == g.perAttempt
            && after.disk.upperBound == g.report.upperBound && after.pc.Settle?
  {
    var g1 := Step(g, Complete(request));
    assert g1.pc == AttemptPersist && g1.report.upperBound == g.report.upperBound;
    hide OnRoute, WithAttempt, WithLastAttempt;
    var g2 := Step(g1, Finish);
    var g3 := Step(g2, Finish);
    var g4 := Step(g3, Finish);
    AfterStep(g, Complete(request), [Finish] + ([Finish] + ([Finish] + ([Finish] + []))));
    AfterStep(g1, Finish, [Finish] + ([Finish] + ([Finish] + [])));
    AfterStep(g2, Finish, [Finish] + ([Finish] + []));
    AfterStep(g3, Finish, [Finish] + []);
    AfterStep(g4, Finish, []);
    assert After(Step(g4, Finish), []) == Step(g4, Finish);
  }

  /**
   * A request sent after such a `finish` is still covered by the persisted report if and only if some listed
   * attempt was never handed to the provider, because its own `persist` raised.
   */
  lemma {:induction false} StrandedRequestIff(g: Guard, request: Request)
    requires Inv(g) && g.pc.Stranded? && |Last(g.report).attempts| < 2 && OnRoute(g.limits, request)
    ensures var after := After(g, Sending(request));
            after.disk.upperBound >= Cost(after, after.started) <==> g.started < Attempts(g.report.reservations)
  {
    SendingSteps(g, request);
    var all := Attempts(g.report.reservations);
    if g.started < all {
      CostMonotone(g, g.started + 1, all);
    } else {
      CostAdds(g, all, g.started + 1 - all);
    }
    hide After, Sending, Times, Attempts, Sent, PerAttempt, OnRoute, Front;
  }

  /** The five statements of `finish` up to its `persist`, which succeeds. */
  function Finishing(): seq<Choice> {
    [Finish] + ([Finish] + ([Finish] + ([Finish] + ([Finish] + []))))
  }

  lemma {:induction false} FinishingSteps(g: Guard)
    requires g.pc.Stranded? && Open(g) && |Last(g.report).attempts| <= 2
    ensures var after := After(g, Finishing());
            && after.started == g.started && after.perAttempt == g.perAttempt && after.pc.FinishClear?
            && after.disk.upperBound == g.charged - Times((2 - |Last(g.report).attempts|) as real, g.perAttempt)
  {
    hide Times;
    var g1 := Step(g, Finish);
    var g2 := Step(g1, Finish);
    assert Open(g2);
    var g3 := Step(g2, Finish);
    var g4 := Step(g3, Finish);
    hide WithLast, Last;
    AfterStep(g, Finish, [Finish] + ([Finish] + ([Finish] + ([Finish] + []))));
    AfterStep(g1, Finish, [Finish] + ([Finish] + ([Finish] + [])));
    AfterStep(g2, Finish, [Finish] + ([Finish] + []));
    AfterStep(g3, Finish, [Finish] + []);
    AfterStep(g4, Finish, []);
    assert After(Step(g4, Finish), []) == Step(g4, Finish);
  }

  /**
   * A second `finish` after such a `finish` leaves the started transports covered by the persisted report if and
   * only if at least as many listed attempts were never handed to the provider as the case left unused.
   */
  lemma {:induction false} StrandedFinishIff(g: Guard)
    requires Inv(g) && g.pc.Stranded?
    ensures var after := After(g, Finishing());
            after.disk.upperBound >= Cost(after, after.started) <==>
            g.started + (2 - |Last(g.report).attempts|) <= Attempts(g.report.reservations)
  {
    hide Attempts, Sent, PerAttempt, After, Finishing, Covered;
    FinishingSteps(g);
    CostGap(g, Attempts(g.report.reservations), g.started, 2 - |Last(g.report).attempts|);
    hide Times;
  }

  lemma {:induction false} CostGap(g: Guard, all: nat, a: nat, b: nat)
    requires g.perAttempt > 0.0
    ensures Cost(g, all) - Cost(g, b) >= Cost(g, a) <==> a + b <= all
  {
    hide Times;
    CostAdds(g, a, b);
    if a + b <= all {
      CostMonotone(g, a + b, all);
    } else {
      CostAdds(g, all, a + b - all);
    }
  }

  const SAMPLE := Limits("m", 1, 0, 1000000.0, 1.0)

  lemma {:induction false} SampleAttempt()
    ensures SAMPLE.Valid() && PerAttempt(SAMPLE) == 1.0
  {
  }

  function SampleGuard(charged: real, current: Current, report: Report, disk: Report, stale: bool, pc: Pc): Guard {
    Guard(SAMPLE, 1.0, 2.0, charged, current, report, disk, 0, stale, pc)
  }

  function SampleReport(usd: real, completed: bool, upperBound: real): Report {
    Report([Reservation("c", usd, [], completed)], upperBound)
  }

  /** The case is open and on disk. */
  function SampleBegun(): Guard {
    SampleGuard(2.0, Listed, SampleReport(2.0, false, 2.0), SampleReport(2.0, false, 2.0), false, Ready)
  }

  /** The case was finished without an attempt and the report could not be replaced. */
  function SampleStranded(): Guard {
    SampleGuard(0.0, Listed, SampleReport(0.0, true, 0.0), SampleReport(2.0, false, 2.0), true, Stranded)
  }

  lemma {:induction false} SampleBegins(rest: seq<Choice>)
    ensures After(NewGuard(SAMPLE, 2.0), [Begin("c")] + ([Finish] + ([Finish] + ([Finish] + ([Finish] + rest))))) ==
            After(SampleBegun(), rest)
  {
    SampleAttempt();
    hide After, PerAttempt;
    var none, early, begun := Report([], 0.0), SampleReport(2.0, false, 0.0), SampleReport(2.0, false, 2.0);
    var g0 := NewGuard(SAMPLE, 2.0);
    var g1 := SampleGuard(0.0, Detached(Reservation("c", 2.0, [], false)), none, none, false, BeginAppend);
    var g2 := SampleGuard(0.0, Listed, early, none, false, BeginCharge);
    var g3 := SampleGuard(2.0, Listed, early, none, false, BeginBound);
    var g4 := SampleGuard(2.0, Listed, begun, none, false, BeginPersist);
    assert Step(g0, Begin("c")) == g1 && Step(g1, Finish) == g2;
    assert Step(g2, Finish) == g3 && Step(g3, Finish) == g4;
    AfterStep(g0, Begin("c"), [Finish] + ([Finish] + ([Finish] + ([Finish] + rest))));
    AfterStep(g1, Finish, [Finish] + ([Finish] + ([Finish] + rest)));
    AfterStep(g2, Finish, [Finish] + ([Finish] + rest));
    AfterStep(g3, Finish, [Finish] + rest);
    AfterStep(g4, Finish, rest);
  }

  lemma {:induction false} SampleStrands(rest: seq<Choice>)
    ensures After(SampleBegun(),
                  [Finish] + ([Finish] + ([Finish] + ([Finish] + ([Persists(Raises(false))] + rest))))) ==
            After(SampleStranded(), rest)
  {
    hide After;
    var lost, disk := Persists(Raises(false)), SampleReport(2.0, false, 2.0);
    var g0 := SampleBegun();
    var g1 := SampleGuard(0.0, Listed, disk, disk, false, FinishReserved);
    var g2 := SampleGuard(0.0, Listed, SampleReport(0.0, false, 2.0), disk, false, FinishState);
    var g3 := SampleGuard(0.0, Listed, SampleReport(0.0, true, 2.0), disk, false, FinishBound);
    var g4 := SampleGuard(0.0, Listed, SampleReport(0.0, true, 0.0), disk, false, FinishPersist);
    assert Step(g0, Finish) == g1 && Step(g1, Finish) == g2;
    assert Step(g2, Finish) == g3 && Step(g3, Finish) == g4;
    AfterStep(g0, Finish, [Finish] + ([Finish] + ([Finish] + ([lost] + rest))));
    AfterStep(g1, Finish, [Finish] + ([Finish] + ([lost] + rest)));
    AfterStep(g2, Finish, [Finish] + ([lost] + rest));
    AfterStep(g3, Finish, [lost] + rest);
    AfterStep(g4, lost, rest);
  }

  /** The condition is needed: a request sent after such a `finish` is not covered by the persisted report. */
  lemma {:induction false} StrandedRequestUncovered() returns (choices: seq<Choice>)
    ensures var g := After(NewGuard(SAMPLE, 2.0), choices);
            Fresh(NewGuard(SAMPLE, 2.0)) && g.disk.upperBound < Cost(g, g.started)
  {
    SampleAttempt();
    var request := Request("m", 0, []);
    var send := Sending(request);
    var strand := [Finish] + ([Finish] + ([Finish] + ([Finish] + ([Persists(Raises(false))] + send))));
    hide After, Sending;
    SendingSteps(SampleStranded(), request);
    SampleStrands(send);
    SampleBegins(strand);
    choices := [Begin("c")] + ([Finish] + ([Finish] + ([Finish] + ([Finish] + strand))));
  }

  // --- what the report says

  /** The report with other attempts in its last record and no other change. */
  ghost predicate WithAttempts(r: Report, was: Report, attempts: seq<Attempt>) {
    && was.reservations != [] && |r.reservations| == |was.reservations| && r.upperBound == was.upperBound
    && (forall i :: 0 <= i < |was.reservations| - 1 ==> r.reservations[i] == was.reservations[i])
    && Last(r) == Last(was).(attempts := attempts)
  }

  lemma {:induction false} AddedExact(r: Report)
    requires r.reservations != []
    ensures WithAttempts(WithAttempt(r), r, Last(r).attempts + [Attempt(TransportMayStart, false, false)])
  {
  }

  /** The records with the last one completed and charged for the attempts it used. */
  ghost function FinishedRecords(was: Report, perAttempt: real): seq<Reservation>
    requires was.reservations != []
  {
    var n := |was.reservations| - 1;
    was.reservations[..n] + [Reservation(Last(was).caseId, Times(|Last(was).attempts| as real, perAttempt),
                                         Last(was).attempts, true)]
  }

  lemma {:induction false} MarkedExact(r: Report, was: Report, front: seq<Attempt>, a: Attempt)
    requires WithAttempts(r, was, front + [a])
    ensures WithAttempts(WithLastAttempt(r, Admitted), was, front + [Attempt(a.state, true, a.invoked)])
    ensures WithAttempts(WithLastAttempt(r, Invoked), was, front + [Attempt(a.state, a.admitted, true)])
    ensures forall state ::
              WithAttempts(WithLastAttempt(r, Outcome(state)), was, front + [Attempt(state, a.admitted, a.invoked)])
  {
    var all, n := front + [a], |front|;
    assert forall b :: all[n := b] == front + [b];
  }

  /** The bytes of a prompt are those of its messages together. */
  lemma {:induction false} BytesExact(a: seq<string>, b: seq<string>, m: string)
    ensures Bytes(a + b) == Bytes(a) + Bytes(b) && Bytes([m]) == ByteLength(m) && Bytes([]) == 0
    decreases |b|
  {
    hide ByteLength;
    assert [m][..0] == [];
    if b == [] {
      assert a + b == a;
    } else {
      assert (a + b)[..|a + b| - 1] == a + b[..|b| - 1];
      BytesExact(a, b[..|b| - 1], m);
    }
  }

  // --- the object

  lemma {:induction false} StepsAppend(states: seq<Guard>, c: Choice)
    requires states != [] && Steps(states) && SafeCall(states[|states| - 1], c)
    ensures Steps(states + [Step(states[|states| - 1], c)])
  {
    hide Step, SafeCall;
    var longer := states + [Step(states[|states| - 1], c)];
    forall i | 0 <= i < |longer| - 1 ensures Follows(longer[i], longer[i + 1]) {
      assert i < |states| - 1 ==> Follows(states[i], states[i + 1]);
    }
  }

  /**
   * The guard object. Every assignment is followed by a recorded snapshot, and `Valid` says that the
   * recorded snapshots are a run of the machine above; so whatever holds at every statement of a run
   * holds at every statement of these methods. Each method is told how its `persist` ends.
   */
  class GuardObject {
    const limits: Limits
    const perAttempt: real
    const cap: real
    var charged: real
    var current: Current
    var report: Report
    var disk: Report
    ghost var started: nat
    ghost var stale: bool
    ghost var pc: Pc
    ghost var log: seq<Guard>

    ghost function Snapshot(): Guard
      reads this
    {
      Guard(limits, perAttempt, cap, charged, current, report, disk, started, stale, pc)
    }

    ghost predicate Recorded()
      reads this
    {
      log != [] && Steps(log) && Fresh(log[0]) && log[|log| - 1] == Snapshot()
    }

    ghost predicate Valid()
      reads this
    {
      Recorded() && (pc.Ready? || pc.Stranded?)
    }

    constructor (limits: Limits, cap: real)
      requires limits.Valid() && cap > 0.0
      ensures Valid() && log == [Snapshot()] && Snapshot() == NewGuard(limits, cap)
      ensures charged == 0.0 && current.Idle? && report.reservations == [] && started == 0 && this.cap == cap
      ensures perAttempt == (limits.maximumInputTokens as real * limits.inputUsdPerMillion
                             + limits.maxOutputTokens as real * limits.outputUsdPerMillion) / 1000000.0
    {
      this.limits, this.perAttempt, this.cap := limits, PerAttempt(limits), cap;
      charged, current, report, disk := 0.0, Idle, Report([], 0.0), Report([], 0.0);
      started, stale, pc := 0, false, Ready;
      log := [NewGuard(limits, cap)];
    }

    /** Records the state after a statement. */
    ghost method Record(c: Choice)
      requires log != [] && Steps(log) && Fresh(log[0]) && SafeCall(log[|log| - 1], c)
      requires Snapshot() == Step(log[|log| - 1], c)
      modifies this`log
      ensures Recorded() && log == old(log) + [Snapshot()]
    {
      hide Step, SafeCall;
      StepsAppend(log, c);
      log := log + [Snapshot()];
    }

    /** `atomic_report`: the file holds the report unless it raises before the replacement. */
    method Persist(io: Io)
      modifies this`disk, this`stale
      ensures Snapshot() == Persisted(old(Snapshot()), io)
    {
      if io != Raises(false) {
        disk := report;
      }
      stale := io == Raises(false);
    }

    /** Refuses exactly when a case is open or two more attempts do not fit under the cap. */
    method BeginCase(caseId: string, io: Io) returns (admitted: bool)
      requires Valid()
      modifies this
      ensures Valid() && old(log) <= log
      ensures admitted <==> old(current).Idle? && old(charged) + Times(2.0, perAttempt) <= cap
      ensures admitted ==>
                && charged == old(charged) + Times(2.0, perAttempt) && current.Listed?
                && report.reservations ==
                   old(report).reservations + [Reservation(caseId, Times(2.0, perAttempt), [], false)]
                && (io != Raises(false) ==> disk == report)
      ensures !admitted ==> log == old(log) && report == old(report) && charged == old(charged)
    {
      hide Times, Steps, Fresh;
      var maximum := Times(2.0, perAttempt);
      if current != Idle || charged + maximum > cap {
        return false;
      }
      NotStranded();
      hide Step, SafeCall;
      ListCase(caseId);
      ChargeCase(io);
      return true;
    }

    /** The second half of `begin`. */
    method ChargeCase(io: Io)
      requires Recorded() && pc.BeginCharge?
      modifies this
      ensures Recorded() && pc.Ready? && old(log) <= log && current == old(current)
      ensures charged == old(charged) + Times(2.0, perAttempt) && report.reservations == old(report).reservations
      ensures io != Raises(false) ==> disk == report
    {
      hide Times, Steps, Fresh, Call;
      charged := charged + Times(2.0, perAttempt);
      pc := BeginBound;
      Record(Settles(true));
      report := report.(upperBound := charged);
      pc := BeginPersist;
      Record(Settles(true));
      Persist(io);
      pc := Ready;
      Record(Persists(io));
    }

    /** A stranded guard has an open case. */
    lemma NotStranded()
      requires Valid() && current.Idle?
      ensures pc.Ready?
    {
      hide Steps, Fresh, Times, Attempts, PerAttempt;
      RunKeeps(log, |log| - 1);
    }

    method ListCase(caseId: string)
      requires Recorded() && pc.Ready? && current.Idle? && charged + Times(2.0, perAttempt) <= cap
      modifies this
      ensures Recorded() && pc.BeginCharge? && current.Listed? && old(log) <= log
      ensures charged == old(charged) && disk == old(disk) && started == old(started)
      ensures report.reservations ==
              old(report).reservations + [Reservation(caseId, Times(2.0, perAttempt), [], false)]
    {
      hide Times, Steps, Fresh;
      var reservation := Reservation(caseId, Times(2.0, perAttempt), [], false);
      current := Detached(reservation);
      pc := BeginAppend;
      Record(Begin(caseId));
      report := report.(reservations := report.reservations + [reservation]);
      current := Listed;
      pc := BeginCharge;
      Record(Settles(true));
    }

    /**
     * `before_transport`: the attempt is on disk before the transport can start; if its `persist` raises, nothing
     * is sent. A guard stranded by an earlier `finish` must not be asked.
     */
    method BeforeTransport(request: Request, io: Io) returns (admitted: bool)
      requires Valid() && SafeCall(Snapshot(), Complete(request))
      modifies this
      ensures Recorded() && old(log) <= log && started == old(started)
      ensures admitted <==>
              && old(current).Listed? && old(report).reservations != [] && |Last(old(report)).attempts| < 2
              && request.model == limits.model && request.maxTokens <= limits.maxOutputTokens
              && Bytes(request.messages) <= limits.maximumInputTokens && io.Saves?
      ensures admitted ==> pc.MarkInvoked? && Attempts(disk.reservations) > started && charged == old(charged)
      ensures admitted ==>
                WithAttempts(report, old(report),
                             Last(old(report)).attempts + [Attempt(TransportMayStart, true, false)])
      ensures !admitted ==> Valid() && (io.Saves? ==> log == old(log) && report == old(report))
    {
      assert OnRoute(limits, request) <==>
          && request.model == limits.model && request.maxTokens <= limits.maxOutputTokens
          && Bytes(request.messages) <= limits.maximumInputTokens;
      hide Times, Steps, Fresh, OnRoute, Attempts, PerAttempt, Bytes;
      if !current.Listed? || report.reservations == [] || |Last(report).attempts| >= 2 || !OnRoute(limits, request) {
        return false;
      }
      AddedExact(report);
      report := WithAttempt(report);
      MarkedExact(report, old(report), Last(old(report)).attempts, FRESH_ATTEMPT);
      pc := AttemptPersist;
      Record(Complete(request));
      hide Step, SafeCall, WithAttempts, WithAttempt, WithLastAttempt;
      admitted := SaveAttempt(io);
    }

    /** The attempt is persisted, then marked as admitted. */
    method SaveAttempt(io: Io) returns (admitted: bool)
      requires Recorded() && pc.AttemptPersist?
      modifies this
      ensures Recorded() && old(log) <= log && started == old(started) && (admitted <==> io.Saves?)
      ensures if admitted then pc.MarkInvoked? && Attempts(disk.reservations) > started else pc.Ready?
      ensures charged == old(charged) && (admitted ==> report == WithLastAttempt(old(report), Admitted))
    {
      hide Times, Steps, Fresh, Attempts, PerAttempt, WithLastAttempt, Call;
      Persist(io);
      pc := if io.Saves? then AttemptAdmit else Ready;
      Record(Persists(io));
      if io.Raises? {
        return false;
      }
      report := WithLastAttempt(report, Admitted);
      pc := MarkInvoked;
      Record(Settles(true));
      OnDisk();
      return true;
    }

    lemma OnDisk()
      requires Recorded() && pc.MarkInvoked?
      ensures Attempts(disk.reservations) > started
    {
      RunKeeps(log, |log| - 1);
      InvokedLater(Snapshot());
    }

    /** The attempt is marked and the transport starts. */
    method StartTransport()
      requires Recorded() && pc.MarkInvoked?
      modifies this
      ensures Recorded() && pc.Settle? && old(log) <= log && started == old(started) + 1 && disk == old(disk)
      ensures report == WithLastAttempt(old(report), Invoked) && charged == old(charged)
    {
      hide Times, Steps, Fresh, WithLastAttempt, Call;
      report := WithLastAttempt(report, Invoked);
      pc := Transport;
      Record(Settles(true));
      started := started + 1;
      pc := Settle;
      Record(Settles(true));
    }

    /** The outcome is marked and persisted, whether or not there is an answer. */
    method SettleTransport(answered: bool, io: Io)
      requires Recorded() && pc.Settle?
      modifies this
      ensures Valid() && old(log) <= log && started == old(started) && (io != Raises(false) ==> disk == report)
      ensures charged == old(charged)
      ensures report == WithLastAttempt(old(report), Outcome(if answered then ResponseReceived else ErrorOrAmbiguous))
    {
      hide Times, Steps, Fresh, WithLastAttempt, Call;
      report := WithLastAttempt(report, Outcome(if answered then ResponseReceived else ErrorOrAmbiguous));
      pc := SettlePersist;
      Record(Settles(answered));
      Persist(io);
      pc := Ready;
      Record(Persists(io));
    }

    /** From the admitted attempt to its outcome, with the report it leaves. */
    method Deliver(good: bool, io: Io, ghost was: Report, ghost front: seq<Attempt>)
      requires Recorded() && pc.MarkInvoked?
      requires WithAttempts(report, was, front + [Attempt(TransportMayStart, true, false)])
      modifies this
      ensures Valid() && old(log) <= log && started == old(started) + 1 && charged == old(charged)
      ensures io != Raises(false) ==> disk == report
      ensures WithAttempts(report, was,
                           front + [Attempt(if good then ResponseReceived else ErrorOrAmbiguous, true, true)])
    {
      hide Times, Steps, Fresh, Step, WithAttempts, WithLastAttempt, SafeCall;
      MarkedExact(report, was, front, Attempt(TransportMayStart, true, false));
      StartTransport();
      MarkedExact(report, was, front, Attempt(TransportMayStart, true, true));
      SettleTransport(good, io);
    }

    /** `complete`: whatever the provider and the disk do, a sent attempt is listed and bounded on disk. */
    method CompleteRequest(request: Request, answer: Option<Answer>, before: Io, after: Io) returns (sent: bool)
      requires Valid() && SafeCall(Snapshot(), Complete(request))
      modifies this
      ensures Valid() && old(log) <= log && started == old(started) + (if sent then 1 else 0)
      ensures Attempts(disk.reservations) >= started && disk.upperBound >= Cost(Snapshot(), started)
      ensures sent && after != Raises(false) ==> disk == report
      ensures !sent && before.Saves? ==> log == old(log) && report == old(report)
      ensures sent <==>
              && old(current).Listed? && old(report).reservations != [] && |Last(old(report)).attempts| < 2
              && request.model == limits.model && request.maxTokens <= limits.maxOutputTokens
              && Bytes(request.messages) <= limits.maximumInputTokens && before.Saves?
      ensures sent ==>
                var good := answer.Some? && answer.value.model == limits.model && !answer.value.fallbackUsed
                            && answer.value.inputTokens <= limits.maximumInputTokens
                            && answer.value.outputTokens <= limits.maxOutputTokens;
                && charged == old(charged)
                && WithAttempts(report, old(report), Last(old(report)).attempts + [
                                  Attempt(if good then ResponseReceived else ErrorOrAmbiguous, true, true)])
    {
      var good := answer.Some? && WithinCeilings(limits, answer.value);
      hide Times, Steps, Fresh, Step, Attempts, Cost, WithAttempts, WithLastAttempt, SafeCall, Bytes, WithinCeilings;
      sent := BeforeTransport(request, before);
      if sent {
        Deliver(good, after, old(report), Last(old(report)).attempts);
      }
      CrashSafe(log, |log| - 1);
    }

    /** The in-memory half of `finish`. */
    method ReturnUnused()
      requires Valid() && current.Listed? && report.reservations != [] && SafeCall(Snapshot(), Finish)
      modifies this
      ensures Recorded() && pc.FinishBound? && old(log) <= log && current == old(current)
      ensures charged == old(charged) - Times((2 - |Last(old(report)).attempts|) as real, perAttempt)
      ensures report.reservations == FinishedRecords(old(report), perAttempt)
    {
      hide Times, Steps, Fresh;
      var used := |Last(report).attempts|;
      charged := charged - Times((2 - used) as real, perAttempt);
      pc := FinishReserved;
      Record(Finish);
      hide Call, SafeCall;
      assert SafeCall(Snapshot(), Finish) by { NotResting(Snapshot(), Finish); }
      report := WithLast(report, Last(report).(reservedUsd := Times(used as real, perAttempt)));
      pc := FinishState;
      Record(Finish);
      assert SafeCall(Snapshot(), Finish) by { NotResting(Snapshot(), Finish); }
      report := WithLast(report, Last(report).(completed := true));
      pc := FinishBound;
      Record(Finish);
    }

    /**
     * Returns the unused attempts of the open case; the first precondition is the source's assertion. If its
     * `persist` raises the case stays open.
     */
    method FinishCase(io: Io)
      requires Valid() && current.Listed? && report.reservations != [] && SafeCall(Snapshot(), Finish)
      modifies this
      ensures Valid() && old(log) <= log
      ensures charged == old(charged) - Times((2 - |Last(old(report)).attempts|) as real, perAttempt)
      ensures report.upperBound == charged && (io != Raises(false) ==> disk == report)
      ensures if io.Saves? then current.Idle? && pc.Ready? else current.Listed? && pc.Stranded?
      ensures report.reservations == FinishedRecords(old(report), perAttempt)
    {
      hide Times, Steps, Fresh, Step, SafeCall, FinishedRecords;
      ReturnUnused();
      CloseCase(io);
    }

    /** The persisted half of `finish`. */
    method CloseCase(io: Io)
      requires Recorded() && pc.FinishBound? && current.Listed?
      modifies this
      ensures Valid() && old(log) <= log && charged == old(charged)
      ensures report.reservations == old(report).reservations
      ensures report.upperBound == charged && (io != Raises(false) ==> disk == report)
      ensures if io.Saves? then current.Idle? && pc.Ready? else current.Listed? && pc.Stranded?
    {
      hide Times, Steps, Fresh, Call;
      report := report.(upperBound := charged);
      pc := FinishPersist;
      Record(Settles(true));
      SaveClosed(io);
      if io.Saves? {
        current := Idle;
        pc := Ready;
        Record(Settles(true));
      }
    }

    method SaveClosed(io: Io)
      requires Recorded() && pc.FinishPersist?
      modifies this`disk, this`stale, this`pc, this`log
      ensures Recorded() && pc == (if io.Saves? then FinishClear else Stranded) && old(log) <= log
      ensures io != Raises(false) ==> disk == report
    {
      hide Times, Steps, Fresh, Call;
      Persist(io);
      pc := if io.Saves? then FinishClear else Stranded;
      Record(Persists(io));
    }
  }

  lemma {:induction false} NotResting(g: Guard, c: Choice)
    requires !g.pc.Stranded?
    ensures SafeCall(g, c)
  {
  }

  lemma {:induction false} InvokedLater(g: Guard)
    requires Inv(g) && g.pc.MarkInvoked?
    ensures Attempts(g.disk.reservations) > g.started
  {
    var attempts := Last(g.report).attempts;
    CountSplit(g.report);
    assert SentIn(attempts) == SentIn(attempts[..|attempts| - 1]);
    hide Times, PerAttempt, Attempts, Sent, SentIn;
  }
}
