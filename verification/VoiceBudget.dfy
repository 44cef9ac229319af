/** Budget safety: what all sessions together can hold, spend and release. */
module VoiceBudget {
  import opened Options
  import opened Sums
  import opened VoiceConfig
  import opened VoiceLedger
  import opened VoiceInvariants
  import opened VoiceTheorems

  // --- the approved budget bounds every hold ever taken

  /** No receipt of this organization and reference approves more than `budget`. */
  ghost predicate Approved(fleet: Fleet, organization: string, reference: string, budget: real) {
    budget >= 0.0 &&
    forall id :: fleet(id).limits.organization == organization && fleet(id).limits.budgetReference == reference ==>
      fleet(id).limits.remainingBudget <= budget
  }

  lemma UsedNonNegative(fleet: Fleet, s: Store, organization: string)
    requires Inv(fleet, s)
    ensures Sum(UsageCosts(s, organization)) >= 0.0
  {
    hide RowInv;
    forall e | e in UsageCosts(s, organization) ensures UsageCosts(s, organization)[e] >= 0.0 {
      assert EventInv(s, e);
    }
    SumNonNegative(UsageCosts(s, organization));
  }

  lemma ReserveWithinBudget(
    fleet: Fleet, s: Store, id: SessionId, now: int, quotas: QuotaReads, organization: string, reference: string,
    budget: real)
    requires Inv(fleet, s) && Approved(fleet, organization, reference, budget)
    requires Sum(BudgetHolds(s, organization, reference)) <= budget
    ensures Sum(BudgetHolds(Reserve(s, id, fleet(id), now, quotas).store, organization, reference)) <= budget
  {
    hide Inv, Sum, Reservation, FreshRow, BudgetHolds, UsageCosts, OpenHolds, OpenTokens, UsageTokens, ReservedTokens;
    var t := fleet(id);
    if Reserve(s, id, t, now, quotas).outcome == Accepted {
      UsedNonNegative(fleet, s, organization);
      HoldsAfterReserve(s, id, t, now, organization, reference);
    }
  }

  lemma HoldsAfterReserve(s: Store, id: SessionId, t: Terms, now: int, organization: string, reference: string)
    requires id !in s.rows
    ensures var s' := s.(rows := s.rows[id := FreshRow(t, now)]);
            Sum(BudgetHolds(s', organization, reference)) ==
            Sum(BudgetHolds(s, organization, reference))
            + (if t.limits.organization == organization && t.limits.budgetReference == reference then Reservation(t)
               else 0.0)
  {
    hide Sum, Reservation;
    var s' := s.(rows := s.rows[id := FreshRow(t, now)]);
    var before, after := BudgetHolds(s, organization, reference), BudgetHolds(s', organization, reference);
    if t.limits.organization == organization && t.limits.budgetReference == reference {
      assert after == before[id := Reservation(t)];
      SumInsert(before, id, Reservation(t));
    } else {
      assert after == before;
    }
  }

  lemma OtherStepsKeepHolds(fleet: Fleet, s: Store, a: Action, organization: string, reference: string)
    requires !a.DoReserve?
    ensures BudgetHolds(Step(fleet, s, a), organization, reference) == BudgetHolds(s, organization, reference)
  {
    hide Step;
    var s' := Step(fleet, s, a);
    assert s'.rows.Keys == s.rows.Keys by { RowsPersist(fleet, s, a); }
    forall id | id in s.rows ensures Evolves(s.rows[id], s'.rows[id]) {
      StepEvolves(fleet, s, a, id);
    }
  }

  lemma RowsPersist(fleet: Fleet, s: Store, a: Action)
    requires !a.DoReserve?
    ensures Step(fleet, s, a).rows.Keys == s.rows.Keys
  {
    hide Admit, ClosingCost, ReceiptCost, Times;
    if a.DoSweep? {
      SweepKeys(s, a.organization, a.now);
    }
  }

  /**
   * In every interleaving of any number of sessions, the holds of all rows ever created under one
   * organization and budget reference, whatever their status, stay within the approved budget.
   */
  lemma {:induction false} BudgetNeverExceeded(
    fleet: Fleet, actions: seq<Action>, states: seq<Store>, n: nat, organization: string, reference: string,
    budget: real)
    requires Run(fleet, actions, states) && n < |states|
    requires Approved(fleet, organization, reference, budget)
    ensures Sum(BudgetHolds(states[n], organization, reference)) <= budget
  {
    hide Run, Step, Inv, Approved;
    RunStart(fleet, actions, states);
    if n == 0 {
      BudgetStart(fleet, organization, reference, budget);
    } else {
      RunStep(fleet, actions, states, n - 1);
      BudgetNeverExceeded(fleet, actions, states, n - 1, organization, reference, budget);
      RunKeeps(fleet, actions, states, n - 1);
      BudgetStep(fleet, states[n - 1], actions[n - 1], organization, reference, budget);
    }
  }

  /** The same of every reachable database. */
  lemma {:induction false} ReachableBudget(
    fleet: Fleet, s: Store, organization: string, reference: string, budget: real)
    requires Reachable(fleet, s) && Approved(fleet, organization, reference, budget)
    ensures Sum(BudgetHolds(s, organization, reference)) <= budget
  {
    hide Step, Sum, BudgetHolds, Approved;
    var actions: seq<Action>, states: seq<Store> :| Run(fleet, actions, states) && states[|actions|] == s;
    RunStart(fleet, actions, states);
    BudgetNeverExceeded(fleet, actions, states, |actions|, organization, reference, budget);
  }

  lemma BudgetStart(fleet: Fleet, organization: string, reference: string, budget: real)
    requires Approved(fleet, organization, reference, budget)
    ensures Sum(BudgetHolds(Store(map[], map[]), organization, reference)) <= budget
  {
    assert BudgetHolds(Store(map[], map[]), organization, reference) == map[];
  }

  lemma BudgetStep(fleet: Fleet, s: Store, a: Action, organization: string, reference: string, budget: real)
    requires Inv(fleet, s) && Approved(fleet, organization, reference, budget)
    requires Sum(BudgetHolds(s, organization, reference)) <= budget
    ensures Sum(BudgetHolds(Step(fleet, s, a), organization, reference)) <= budget
  {
    hide Inv, Sum, BudgetHolds, Approved, Reserve, Update, ResponseDone, EmbeddingDone, LiveUsage, Close, Sweep;
    if a.DoReserve? {
      ReserveWithinBudget(fleet, s, a.id, a.now, a.quotas, organization, reference, budget);
    } else {
      OtherStepsKeepHolds(fleet, s, a, organization, reference);
    }
  }

  // --- the hold of one session dominates everything it admits

  function ResponseCosts(s: Store, id: SessionId): map<EventId, real> {
    map e | e in s.events && e.ResponseEvent? && e.session == id :: s.events[e].cost
  }

  function EmbeddingCosts(s: Store, id: SessionId): map<EventId, real> {
    map e | e in s.events && e.EmbeddingEvent? && e.key.session == id :: s.events[e].cost
  }

  /** Admitted audio at the approved token bound, or the measured Live duration, in USD. */
  function VoiceCost(t: Terms, s: Store, id: SessionId): real
    requires id in s.rows
  {
    match t.limits.route
    case Realtime(_, _, _, _, _, _) =>
      AudioCost(t, s.rows[id].ledger.audioBytes as real / AUDIO_BYTES_PER_SECOND as real) / MILLION
    case Live(_, _, _) => if DurationEvent(id) in s.events then s.events[DurationEvent(id)].cost else 0.0
  }

  /** Everything the session has admitted, each unresolved part at its worst case. */
  ghost function Spend(t: Terms, s: Store, id: SessionId): real
    requires id in s.rows
  {
    Sum(ResponseCosts(s, id)) + Sum(EmbeddingCosts(s, id))
    + Times(|s.rows[id].ledger.reasoning| as real, WorstReasoning(t)) / MILLION
    + VoiceCost(t, s, id)
  }

  function ReservedSeconds(t: Terms): real {
    (t.limits.maximumSeconds + CLOSE_SECONDS + CLEANUP_SECONDS) as real
  }

  /**
   * What the provider measured beyond the reserved duration, which the protocol records and flags but
   * cannot prevent. Only a Live session can overrun.
   */
  function Overrun(t: Terms, data: Ledger): real {
    if t.limits.route.Live? && data.live.Some? && data.live.value.seconds.Some?
       && data.live.value.seconds.value > ReservedSeconds(t) then
      Times(data.live.value.seconds.value - ReservedSeconds(t), UsdPerSecond(t))
    else 0.0
  }

  lemma ResponsesBounded(fleet: Fleet, s: Store, id: SessionId)
    requires Inv(fleet, s) && id in s.rows
    ensures fleet(id).limits.route.Live? ==> Sum(ResponseCosts(s, id)) == 0.0
    ensures fleet(id).limits.route.Realtime? ==>
              Sum(ResponseCosts(s, id)) <=
              Times(fleet(id).limits.route.maximumResponses as real, WorstResponse(fleet(id).limits.route)) / MILLION
  {
    hide Inv, RowInv, Times, WorstResponse;
    RowOf(fleet, s, id);
    var t, row := fleet(id), s.rows[id];
    var costs := ResponseCosts(s, id);
    forall e | e in costs
      ensures SettledBy(row.ledger.responses, e.responseId) && t.limits.route.Realtime?
      ensures costs[e] <= WorstResponse(t.limits.route) / MILLION
    {
      assert e == ResponseEvent(id, e.responseId);
      ResponseEventBounded(t, id, row, s.events, e.responseId);
    }
    if costs == map[] {
      WorstCasesNonNegative(t);
      if t.limits.route.Realtime? {
        CountBounded(costs, t.limits.route.maximumResponses, WorstResponse(t.limits.route));
      }
    } else {
      var e :| e in costs;
      ResponseEventBounded(t, id, row, s.events, e.responseId);
      hide Sum, SettledBy;
      ResponseCount(costs.Keys, row.ledger.responses, id);
      WorstCasesNonNegative(t);
      CountBounded(costs, t.limits.route.maximumResponses, WorstResponse(t.limits.route));
    }
  }

  /** Distinct response events are no more than the admitted responses. */
  lemma ResponseCount(events: set<EventId>, rs: seq<Response>, id: SessionId)
    requires forall e :: e in events ==> e.ResponseEvent? && e.session == id && SettledBy(rs, e.responseId)
    ensures |events| <= |rs|
  {
    var ids := set e | e in events :: Some(e.responseId);
    var names := seq(|rs|, i requires 0 <= i < |rs| => rs[i].responseId);
    forall e | e in events ensures Some(e.responseId) in names {
      var i :| 0 <= i < |rs| && rs[i].done && rs[i].responseId == Some(e.responseId);
      assert names[i] == Some(e.responseId);
    }
    CardinalityAtMostLength(ids, names);
    SameCardinality(events, ids, id);
  }

  lemma ResponseEventBounded(t: Terms, id: SessionId, row: Row, events: map<EventId, Event>, rid: string)
    requires RowInv(t, id, row, events) && ResponseEvent(id, rid) in events
    ensures SettledBy(row.ledger.responses, rid) && t.limits.route.Realtime?
    ensures events[ResponseEvent(id, rid)].cost <= WorstResponse(t.limits.route) / MILLION
    ensures |row.ledger.responses| <= t.limits.route.maximumResponses
  {
    hide Reservation, Times, EmbeddingsAccounted, DurationAccounted, HoldAccounted, ReleaseJustified, WorstResponse;
    var rs := row.ledger.responses;
    assert SettledBy(rs, rid);
    var i :| 0 <= i < |rs| && rs[i].done && rs[i].responseId == Some(rid);
    assert SettledFirst(id, rs, i, events) && EstimateBounded(t, rs[i]);
    WorstCasesNonNegative(t);
  }

  lemma {:induction false} SameCardinality(events: set<EventId>, ids: set<Option<string>>, id: SessionId)
    requires forall e :: e in events ==> e.ResponseEvent? && e.session == id
    requires ids == set e | e in events :: Some(e.responseId)
    ensures |events| == |ids|
    decreases |events|
  {
    if events != {} {
      var e :| e in events;
      var rest := set d | d in events - {e} :: Some(d.responseId);
      assert ids == rest + {Some(e.responseId)};
      assert Some(e.responseId) !in rest;
      SameCardinality(events - {e}, rest, id);
    }
  }

  /** At most `n` values, each at most `worst` millionths, total at most `n * worst` millionths. */
  lemma CountBounded<K(!new)>(costs: map<K, real>, n: nat, worst: real)
    requires |costs| <= n && worst >= 0.0
    requires forall k :: k in costs ==> costs[k] <= worst / MILLION
    ensures Sum(costs) <= Times(n as real, worst) / MILLION
  {
    hide Sum, Times;
    SumBounded(costs, worst / MILLION);
    TimesMonotone(|costs| as real, n as real, worst);
    TimesScale(|costs| as real, worst, MILLION);
  }

  lemma EmbeddingsBounded(fleet: Fleet, s: Store, id: SessionId)
    requires Inv(fleet, s) && id in s.rows
    ensures Sum(EmbeddingCosts(s, id)) <=
            Times(fleet(id).limits.maximumTurns as real, WorstEmbedding(fleet(id))) / MILLION
  {
    var t, data := fleet(id), s.rows[id].ledger;
    assert RowInv(t, id, s.rows[id], s.events);
    var costs := EmbeddingCosts(s, id);
    var keys := set e | e in costs :: e.key;
    assert keys <= data.embeddings.Keys;
    hide Inv, RowInv, Times, Reservation, WorstEmbedding;
    CardinalityMonotone(keys, data.embeddings.Keys);
    KeyCardinality(costs.Keys, keys);
    WorstCasesNonNegative(t);
    CountBounded(costs, t.limits.maximumTurns, WorstEmbedding(t));
  }

  lemma {:induction false} KeyCardinality(events: set<EventId>, keys: set<Key>)
    requires forall e :: e in events ==> e.EmbeddingEvent?
    requires keys == set e | e in events :: e.key
    ensures |events| == |keys|
    decreases |events|
  {
    if events != {} {
      var e :| e in events;
      var rest := set d | d in events - {e} :: d.key;
      assert keys == rest + {e.key};
      assert e.key !in rest;
      KeyCardinality(events - {e}, rest);
    }
  }

  lemma VoiceCostBounded(fleet: Fleet, s: Store, id: SessionId)
    requires Inv(fleet, s) && id in s.rows
    ensures var t := fleet(id);
            t.limits.route.Realtime? ==>
              VoiceCost(t, s, id) <= AudioCost(t, t.limits.maximumAudioSeconds as real) / MILLION
    ensures var t := fleet(id);
            t.limits.route.Live? ==>
              VoiceCost(t, s, id) <= Times(ReservedSeconds(t), UsdPerSecond(t)) + Overrun(t, s.rows[id].ledger)
  {
    hide Inv, ResponsesAccounted, EmbeddingsAccounted, HoldAccounted, ReleaseJustified, Times, Reservation, AudioCost;
    RowOf(fleet, s, id);
    var t, data := fleet(id), s.rows[id].ledger;
    hide RowInv;
    if t.limits.route.Realtime? {
      AudioSeconds(data.audioBytes, t.limits.maximumAudioSeconds);
      AudioMonotone(t, data.audioBytes as real / AUDIO_BYTES_PER_SECOND as real, t.limits.maximumAudioSeconds as real);
    } else {
      var longest := ReservedSeconds(t);
      WorstCasesNonNegative(t);
      TimesNonNegative(longest, UsdPerSecond(t));
      if DurationEvent(id) in s.events {
        var seconds := data.live.value.seconds.value;
        if seconds <= longest {
          TimesMonotone(seconds, longest, UsdPerSecond(t));
        } else {
          TimesAdd(longest, seconds - longest, UsdPerSecond(t));
        }
      }
    }
  }

  lemma AudioSeconds(bytes: nat, seconds: nat)
    requires bytes <= AUDIO_BYTES_PER_SECOND * seconds
    ensures bytes as real / AUDIO_BYTES_PER_SECOND as real <= seconds as real
  {
  }

  lemma SpendBounded(fleet: Fleet, s: Store, id: SessionId)
    requires Inv(fleet, s) && id in s.rows
    ensures Spend(fleet(id), s, id) <= s.rows[id].reservedCost + Overrun(fleet(id), s.rows[id].ledger)
    ensures fleet(id).limits.route.Realtime? ==> Overrun(fleet(id), s.rows[id].ledger) == 0.0
  {
    hide Inv, RowInv, Times, Sum, ResponseCosts, EmbeddingCosts, VoiceCost, AudioCost, WorstReasoning, WorstEmbedding;
    hide WorstResponse, UsdPerSecond;
    var t := fleet(id);
    RowIdentity(fleet, s, id);
    ResponsesBounded(fleet, s, id);
    EmbeddingsBounded(fleet, s, id);
    VoiceCostBounded(fleet, s, id);
    WorstCasesNonNegative(t);
    TimesMonotone(|s.rows[id].ledger.reasoning| as real, (t.limits.maximumTurns * 4) as real, WorstReasoning(t));
  }

  /**
   * In any reachable state the hold of a session covers its priced response and embedding events, its
   * admitted reasoning attempts at the receipt's worst case, and its admitted audio or measured duration.
   */
  lemma ReservationDominatesSpend(fleet: Fleet, s: Store, id: SessionId)
    requires Reachable(fleet, s) && id in s.rows
    ensures Spend(fleet(id), s, id) <= s.rows[id].reservedCost + Overrun(fleet(id), s.rows[id].ledger)
    ensures Overrun(fleet(id), s.rows[id].ledger) >= 0.0
    ensures var live := s.rows[id].ledger.live;
            Overrun(fleet(id), s.rows[id].ledger) > 0.0 <==>
            fleet(id).limits.route.Live? && live.Some? && live.value.seconds.Some? && !live.value.within
  {
    ReachableInv(fleet, s);
    hide Reachable;
    SpendBounded(fleet, s, id);
    RowOf(fleet, s, id);
    hide Inv, Spend, ResponsesAccounted, EmbeddingsAccounted, Capped, HoldAccounted, ReleaseJustified, Times;
    hide Reservation;
    OverrunSign(fleet(id), s.rows[id].ledger);
  }

  /** There is an overrun exactly when a Live receipt exceeds the reserved seconds. */
  lemma {:induction false} OverrunSign(t: Terms, data: Ledger)
    ensures Overrun(t, data) >= 0.0
    ensures Overrun(t, data) > 0.0 <==>
            && t.limits.route.Live? && data.live.Some? && data.live.value.seconds.Some?
            && data.live.value.seconds.value > ReservedSeconds(t)
  {
    hide Times;
    if t.limits.route.Live? && data.live.Some? && data.live.value.seconds.Some? {
      WorstCasesNonNegative(t);
      TimesOrder(data.live.value.seconds.value, ReservedSeconds(t), UsdPerSecond(t));
    }
  }

  lemma RowIdentity(fleet: Fleet, s: Store, id: SessionId)
    requires Inv(fleet, s) && id in s.rows
    ensures s.rows[id].reservedCost == Reservation(fleet(id))
    ensures |s.rows[id].ledger.reasoning| <= fleet(id).limits.maximumTurns * 4
  {
    hide Inv, ResponsesAccounted, EmbeddingsAccounted, DurationAccounted, HoldAccounted, ReleaseJustified, Reservation;
    RowOf(fleet, s, id);
  }

  /** The spend of every session under one budget reference. */
  ghost function BudgetSpend(fleet: Fleet, s: Store, organization: string, reference: string): map<SessionId, real> {
    map id | id in s.rows && s.rows[id].organization == organization && s.rows[id].budgetReference == reference
      :: Spend(fleet(id), s, id)
  }

  function BudgetOverruns(fleet: Fleet, s: Store, organization: string, reference: string): map<SessionId, real> {
    map id | id in s.rows && s.rows[id].organization == organization && s.rows[id].budgetReference == reference
      :: Overrun(fleet(id), s.rows[id].ledger)
  }

  lemma SpendWithinHolds(fleet: Fleet, s: Store, organization: string, reference: string)
    requires Inv(fleet, s)
    ensures Sum(BudgetSpend(fleet, s, organization, reference)) <=
            Sum(BudgetHolds(s, organization, reference)) + Sum(BudgetOverruns(fleet, s, organization, reference))
  {
    hide Inv, Sum, Spend, Overrun;
    forall id | id in s.rows
      ensures Spend(fleet(id), s, id) <= s.rows[id].reservedCost + Overrun(fleet(id), s.rows[id].ledger)
    {
      SpendBounded(fleet, s, id);
    }
    var holds, overruns := BudgetHolds(s, organization, reference), BudgetOverruns(fleet, s, organization, reference);
    var bound := map id | id in holds :: holds[id] + overruns[id];
    SumPointwise(bound, holds, overruns);
    SumMonotone(BudgetSpend(fleet, s, organization, reference), bound);
  }

  /**
   * The budget theorem: over every run, all sessions of one organization and reference together never
   * spend more than the approved budget, plus only what providers measured beyond a reserved duration.
   */
  lemma TotalSpendNeverExceedsBudget(
    fleet: Fleet, actions: seq<Action>, states: seq<Store>, n: nat, organization: string, reference: string,
    budget: real)
    requires Run(fleet, actions, states) && n < |states|
    requires Approved(fleet, organization, reference, budget)
    ensures Sum(BudgetSpend(fleet, states[n], organization, reference)) <=
            budget + Sum(BudgetOverruns(fleet, states[n], organization, reference))
  {
    hide Inv, Sum, Run, BudgetSpend, BudgetHolds, BudgetOverruns, Approved;
    BudgetNeverExceeded(fleet, actions, states, n, organization, reference, budget);
    RunKeeps(fleet, actions, states, n);
    SpendWithinHolds(fleet, states[n], organization, reference);
  }

  // --- never refund the unknown

  function OwnCosts(s: Store, id: SessionId): map<EventId, real> {
    map e | e in s.events && Owner(e) == Some(id) :: s.events[e].cost
  }

  /** What a later `reserve` counts for a session: its usage events, and its hold until released. */
  ghost function Counted(s: Store, id: SessionId): real
    requires id in s.rows
  {
    Sum(OwnCosts(s, id)) + (if Unreleased(s.rows[id]) then s.rows[id].reservedCost else 0.0)
  }

  lemma OwnCostsNonNegative(fleet: Fleet, s: Store, id: SessionId)
    requires Inv(fleet, s)
    ensures forall e :: e in OwnCosts(s, id) ==> OwnCosts(s, id)[e] >= 0.0
    ensures Sum(OwnCosts(s, id)) >= 0.0
  {
    hide RowInv;
    forall e | e in OwnCosts(s, id) ensures OwnCosts(s, id)[e] >= 0.0 {
      assert EventInv(s, e);
    }
    SumNonNegative(OwnCosts(s, id));
  }

  /** Some part of the session's spend is not established by a provider receipt. */
  predicate UnknownSpend(t: Terms, data: Ledger) {
    if t.limits.route.Realtime? then Ambiguous(data)
    else Secondary(data) || data.live.None? || !data.live.value.finalized
  }

  /**
   * Whatever close, sweep and late receipts do, in whatever order: while any spend of a session is
   * unknown its whole hold stays counted, and once a final duration is recorded at least the measured
   * seconds stay counted.
   */
  lemma UnknownSpendStaysCounted(fleet: Fleet, s: Store, id: SessionId)
    requires Reachable(fleet, s) && id in s.rows
    ensures UnknownSpend(fleet(id), s.rows[id].ledger) ==> Counted(s, id) >= s.rows[id].reservedCost
    ensures var live := s.rows[id].ledger.live;
            live.Some? && live.value.seconds.Some? ==>
              fleet(id).limits.route.Live? && Counted(s, id) >= Times(live.value.seconds.value, UsdPerSecond(fleet(id)))
  {
    hide Reachable, Inv, Sum, Times, Counted, UnknownSpend;
    ReachableInv(fleet, s);
    if UnknownSpend(fleet(id), s.rows[id].ledger) {
      HoldStaysCounted(fleet, s, id);
    }
    if s.rows[id].ledger.live.Some? && s.rows[id].ledger.live.value.seconds.Some? {
      DurationStaysCounted(fleet, s, id);
    }
  }

  /** A session is counted for at least each of its own events. */
  lemma {:induction false} CountedAtLeast(fleet: Fleet, s: Store, id: SessionId, e: EventId)
    requires Inv(fleet, s) && id in s.rows && e in s.events && Owner(e) == Some(id)
    ensures Counted(s, id) >= s.events[e].cost
  {
    hide Inv, Sum;
    OwnCostsNonNegative(fleet, s, id);
    HoldNonNegative(fleet, s, id);
    SumAtLeast(OwnCosts(s, id), e);
  }

  lemma {:induction false} HoldStaysCounted(fleet: Fleet, s: Store, id: SessionId)
    requires Inv(fleet, s) && id in s.rows && UnknownSpend(fleet(id), s.rows[id].ledger)
    ensures Counted(s, id) >= s.rows[id].reservedCost
  {
    hide Inv, Sum, ResponsesAccounted, EmbeddingsAccounted, DurationAccounted, Capped, Times, Ambiguous, Secondary;
    RowOf(fleet, s, id);
    OwnCostsNonNegative(fleet, s, id);
    if !Unreleased(s.rows[id]) {
      CountedAtLeast(fleet, s, id, HoldEvent(id));
    }
  }

  lemma {:induction false} DurationStaysCounted(fleet: Fleet, s: Store, id: SessionId)
    requires Inv(fleet, s) && id in s.rows
    requires s.rows[id].ledger.live.Some? && s.rows[id].ledger.live.value.seconds.Some?
    ensures fleet(id).limits.route.Live?
    ensures Counted(s, id) >= Times(s.rows[id].ledger.live.value.seconds.value, UsdPerSecond(fleet(id)))
  {
    hide Inv, Counted, ResponsesAccounted, EmbeddingsAccounted, HoldAccounted, ReleaseJustified, Capped, Times;
    RowOf(fleet, s, id);
    CountedAtLeast(fleet, s, id, DurationEvent(id));
  }

  lemma QuotaCountsSessions(fleet: Fleet, s: Store, organization: string)
    requires Inv(fleet, s)
    ensures Sum(UsageCosts(s, organization)) + Sum(OpenHolds(s, organization)) >=
            Sum(CountedOf(s, SessionsOf(s, organization)))
  {
    hide RowInv, Sum;
    var ids := SessionsOf(s, organization);
    CountedBy(s, organization, ids);
    var owned := OwnedBy(s, organization, ids);
    var others := map e | e in UsageCosts(s, organization) && e !in owned :: UsageCosts(s, organization)[e];
    forall e | e in others ensures others[e] >= 0.0 {
      assert EventInv(s, e);
    }
    hide Inv, EventInv;
    SumNonNegative(others);
    assert Splits(UsageCosts(s, organization), owned, others);
    SumSplit(UsageCosts(s, organization), owned, others);
    assert HeldBy(s, ids) == OpenHolds(s, organization);
  }

  /** In every reachable state the two totals of the monthly quota check see every session of the organization. */
  lemma QuotaSeesEverySession(fleet: Fleet, s: Store, organization: string)
    requires Reachable(fleet, s)
    ensures Sum(UsageCosts(s, organization)) + Sum(OpenHolds(s, organization)) >=
            Sum(CountedOf(s, SessionsOf(s, organization)))
  {
    hide Reachable, Inv, Sum, UsageCosts, OpenHolds, CountedOf, SessionsOf;
    ReachableInv(fleet, s);
    QuotaCountsSessions(fleet, s, organization);
  }

  function SessionsOf(s: Store, organization: string): set<SessionId> {
    set id | id in s.rows && s.rows[id].organization == organization
  }

  function OwnedBy(s: Store, organization: string, ids: set<SessionId>): map<EventId, real> {
    map e | e in s.events && s.events[e].organization == organization && Owner(e).Some? && Owner(e).value in ids
      :: s.events[e].cost
  }

  function HeldBy(s: Store, ids: set<SessionId>): map<SessionId, real> {
    map id | id in ids && id in s.rows && Unreleased(s.rows[id]) :: s.rows[id].reservedCost
  }

  ghost function CountedOf(s: Store, ids: set<SessionId>): map<SessionId, real> {
    map id | id in ids && id in s.rows :: Counted(s, id)
  }

  lemma {:induction false} CountedBy(s: Store, organization: string, ids: set<SessionId>)
    requires forall id :: id in ids ==> id in s.rows && s.rows[id].organization == organization
    requires forall e :: e in s.events ==> EventInv(s, e)
    ensures Sum(OwnedBy(s, organization, ids)) + Sum(HeldBy(s, ids)) == Sum(CountedOf(s, ids))
    decreases |ids|
  {
    if ids == {} {
      assert OwnedBy(s, organization, ids) == map[];
      assert HeldBy(s, ids) == map[];
      assert CountedOf(s, ids) == map[];
    } else {
      hide Sum, EventInv;
      var id :| id in ids;
      CountedBy(s, organization, ids - {id});
      OwnedStep(s, organization, ids, id);
      HeldStep(s, ids, id);
      hide OwnedBy, HeldBy;
      var rest := CountedOf(s, ids - {id});
      assert CountedOf(s, ids) == rest[id := Counted(s, id)];
      SumInsert(rest, id, Counted(s, id));
    }
  }

  lemma HeldStep(s: Store, ids: set<SessionId>, id: SessionId)
    requires id in ids && id in s.rows
    ensures Sum(HeldBy(s, ids)) ==
            Sum(HeldBy(s, ids - {id})) + if Unreleased(s.rows[id]) then s.rows[id].reservedCost else 0.0
  {
    hide Sum;
    var rest := HeldBy(s, ids - {id});
    if Unreleased(s.rows[id]) {
      assert HeldBy(s, ids) == rest[id := s.rows[id].reservedCost];
      SumInsert(rest, id, s.rows[id].reservedCost);
    } else {
      assert HeldBy(s, ids) == rest;
    }
  }

  lemma OwnedStep(s: Store, organization: string, ids: set<SessionId>, id: SessionId)
    requires id in ids && id in s.rows && s.rows[id].organization == organization
    requires forall e :: e in s.events ==> EventInv(s, e)
    ensures Sum(OwnedBy(s, organization, ids)) == Sum(OwnedBy(s, organization, ids - {id})) + Sum(OwnCosts(s, id))
  {
    hide Sum;
    assert Splits(OwnedBy(s, organization, ids), OwnedBy(s, organization, ids - {id}), OwnCosts(s, id)) by {
      forall e | e in OwnCosts(s, id) ensures e in OwnedBy(s, organization, ids) {
        assert EventInv(s, e);
      }
    }
    SumSplit(OwnedBy(s, organization, ids), OwnedBy(s, organization, ids - {id}), OwnCosts(s, id));
  }

  // --- what the receipts of one session establish

  /**
   * Live receipts: the duration event is exactly the recorded seconds at the verified rate, a finalized
   * session carries no expired-hold charge, and such a charge is the hold exactly, however often swept.
   */
  lemma LiveReceiptsExact(fleet: Fleet, s: Store, id: SessionId)
    requires Reachable(fleet, s) && id in s.rows && fleet(id).limits.route.Live?
    ensures var live := s.rows[id].ledger.live;
            && (DurationEvent(id) in s.events <==> live.Some? && live.value.seconds.Some?)
            && (DurationEvent(id) in s.events && live.Some? && live.value.seconds.Some? ==>
                  s.events[DurationEvent(id)].cost == Times(live.value.seconds.value, UsdPerSecond(fleet(id))))
            && (live.Some? && live.value.finalized ==> HoldEvent(id) !in s.events)
            && (HoldEvent(id) in s.events ==> s.events[HoldEvent(id)].cost == s.rows[id].reservedCost)
  {
    ReachableInv(fleet, s);
    hide Reachable;
    hide ResponsesAccounted, EmbeddingsAccounted, Capped, Times, Reservation;
    RowOf(fleet, s, id);
  }

  /**
   * A realtime row is released only when every admitted response has a known usage event equal to its
   * estimate, every tool is acknowledged and no audio, reasoning or embedding was admitted.
   */
  lemma RealtimeReleaseJustified(fleet: Fleet, s: Store, id: SessionId)
    requires Reachable(fleet, s) && id in s.rows && fleet(id).limits.route.Realtime?
    requires s.rows[id].status == Closed || s.rows[id].accountedCost.Some?
    ensures var data := s.rows[id].ledger;
            && data.audioBytes == 0 && data.reasoning == [] && data.embeddings == map[]
            && (forall call :: call in data.tools ==> data.tools[call].acknowledged)
            && (forall i :: 0 <= i < |data.responses| ==>
                  var r := data.responses[i];
                  && r.done && r.estimate.Some? && r.responseId.Some?
                  && ResponseEvent(id, r.responseId.value) in s.events
                  && s.events[ResponseEvent(id, r.responseId.value)].cost == r.estimate.value)
            && s.rows[id].responseCount == |data.responses|
  {
    ReachableInv(fleet, s);
    hide Reachable;
    RowOf(fleet, s, id);
    hide Inv, EmbeddingsAccounted, DurationAccounted, HoldAccounted, Reservation;
    var data := s.rows[id].ledger;
    forall i | 0 <= i < |data.responses|
      ensures data.responses[i].done && data.responses[i].estimate.Some?
      ensures SettledFirst(id, data.responses, i, s.events)
    {
      assert data.responses[i] in data.responses;
    }
  }
}
