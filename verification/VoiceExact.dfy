/**
 * Each transaction written out: when it is accepted, in terms of the stored rows and the receipt alone, and what it
 * leaves behind, with every formula in plain arithmetic.
 */
module VoiceExact {
  import opened Options
  import opened Sums
  import opened VoiceConfig
  import opened VoiceLedger

  // --- the formulas

  function Larger(a: real, b: real): real {
    if a < b then b else a
  }

  /** The hold of a session, written out. */
  lemma {:induction false} HoldExact(t: Terms)
    ensures var l := t.limits; var turns := l.maximumTurns as real;
            var reasoning := l.reasoning.maximumInputTokens as real * l.reasoning.inputUsdPerMillion
                             + t.agentMaxOutputTokens as real * l.reasoning.outputUsdPerMillion;
            var embedding := if l.embedding.None? then 0.0
                             else l.embedding.value.maximumInputTokens as real * l.embedding.value.inputUsdPerMillion;
            var secondary := (turns * 4.0 * reasoning + turns * embedding) / 1000000.0;
            Reservation(t) ==
            match l.route
            case Realtime(price, audioIn, audioOut, perSecond, responses, output) =>
              (responses as real
               * (price.maximumInputTokens as real * Larger(price.inputUsdPerMillion, audioIn)
                  + output as real * Larger(price.outputUsdPerMillion, audioOut))
               + l.maximumAudioSeconds as real * (perSecond * audioIn)) / 1000000.0 + secondary
            case Live(_, _, perMinute) => (l.maximumSeconds as real + 14.0) * (perMinute / 60.0) + secondary
  {
    var l := t.limits;
    assert Times((l.maximumTurns * 4) as real, WorstReasoning(t)) == l.maximumTurns as real * 4.0 * WorstReasoning(t);
  }

  /** The Live hold for any number of seconds: the margin, the rate per minute, and the secondary hold. */
  lemma {:induction false} LiveHoldExact(t: Terms, seconds: nat)
    requires t.limits.route.Live?
    ensures var l := t.limits;
            LiveHold(t, seconds) ==
            (seconds as real + 14.0) * (l.route.usdPerMinute / 60.0)
            + (Reservation(t) - (l.maximumSeconds as real + 14.0) * (l.route.usdPerMinute / 60.0))
  {
    hide SecondaryReservation;
    assert (seconds + CLOSE_SECONDS + CLEANUP_SECONDS) as real == seconds as real + 14.0;
  }

  /** The price of one response, written out. */
  lemma {:induction false} ResponsePriceExact(r: Route, input: nat, output: nat)
    requires r.Realtime?
    ensures PricedResponse(r, input, output) / MILLION ==
            (input as real * Larger(r.price.inputUsdPerMillion, r.audioInputUsdPerMillion)
             + output as real * Larger(r.price.outputUsdPerMillion, r.audioOutputUsdPerMillion)) / 1000000.0
  {
  }

  // --- reserve

  /** The unreleased sessions of an organization: not closed, or closed without an accounted cost. */
  predicate Holding(s: Store, id: SessionId, organization: string)
    requires id in s.rows
  {
    s.rows[id].organization == organization && !(s.rows[id].status == Closed && s.rows[id].accountedCost.Some?)
  }

  function EventCosts(s: Store, organization: string): map<EventId, real> {
    map e | e in s.events && s.events[e].organization == organization :: s.events[e].cost
  }

  function EventTokens(s: Store, organization: string): map<EventId, real> {
    map e | e in s.events && s.events[e].organization == organization :: s.events[e].tokens as real
  }

  function HoldingCosts(s: Store, organization: string): map<SessionId, real> {
    map id | id in s.rows && Holding(s, id, organization) :: s.rows[id].reservedCost
  }

  function HoldingTokens(s: Store, organization: string): map<SessionId, real> {
    map id | id in s.rows && Holding(s, id, organization) :: s.rows[id].reservedTokens as real
  }

  /** Every hold ever taken under one reference. */
  function TakenCosts(s: Store, organization: string, reference: string): map<SessionId, real> {
    map id | id in s.rows && s.rows[id].organization == organization && s.rows[id].budgetReference == reference
      :: s.rows[id].reservedCost
  }

  lemma {:induction false} TotalsExact(s: Store, t: Terms)
    ensures var org := t.limits.organization;
            TotalsOf(s, t) == Totals(Sum(TakenCosts(s, org, t.limits.budgetReference)), Sum(EventCosts(s, org)),
                                     Sum(EventTokens(s, org)), Sum(HoldingCosts(s, org)), Sum(HoldingTokens(s, org)))
  {
    var org := t.limits.organization;
    assert OpenHolds(s, org) == HoldingCosts(s, org) && OpenTokens(s, org) == HoldingTokens(s, org);
    assert BudgetHolds(s, org, t.limits.budgetReference) == TakenCosts(s, org, t.limits.budgetReference);
    assert UsageCosts(s, org) == EventCosts(s, org) && UsageTokens(s, org) == EventTokens(s, org);
    hide Sum, OpenHolds, HoldingCosts, OpenTokens, HoldingTokens, BudgetHolds, TakenCosts, UsageCosts, UsageTokens;
    hide EventCosts, EventTokens;
  }

  /** The six conditions on a new reservation. */
  ghost predicate MayReserve(s: Store, t: Terms, quotas: QuotaReads) {
    var l, org := t.limits, t.limits.organization;
    && Reservation(t) + Sum(TakenCosts(s, org, l.budgetReference)) + Sum(EventCosts(s, org)) <= l.remainingBudget
    && quotas.quota.Some?
    && var q := quotas.quota.value;
       && (q.dailyLimit < 0 || (quotas.daily as real) < q.dailyLimit as real * q.hardBlock)
       && (q.agentChatLimit < 0 || (quotas.feature as real) < q.agentChatLimit as real * q.hardBlock)
       && (q.monthlyCostLimit <= 0.0
           || Sum(EventCosts(s, org)) + Sum(HoldingCosts(s, org)) + Reservation(t) <= q.monthlyCostLimit * q.hardBlock)
       && (q.monthlyTokenLimit < 0
           || Sum(EventTokens(s, org)) + Sum(HoldingTokens(s, org)) + ReservedTokens(t) as real
              <= q.monthlyTokenLimit as real * q.hardBlock)
  }

  /** A reserve is accepted exactly when the identifier is new and all six conditions hold; it adds a pending row. */
  lemma {:induction false} ReserveIff(s: Store, id: SessionId, t: Terms, now: int, quotas: QuotaReads)
    ensures var r := Reserve(s, id, t, now, quotas); var l := t.limits;
            && (r.outcome.Accepted? <==> id !in s.rows && MayReserve(s, t, quotas))
            && !r.outcome.Replayed?
            && (if r.outcome.Accepted? then
                  && r.store.events == s.events && r.store.rows.Keys == s.rows.Keys + {id}
                  && (forall i :: i in s.rows ==> r.store.rows[i] == s.rows[i])
                  && var row := r.store.rows[id];
                     && row.organization == l.organization && row.budgetReference == l.budgetReference
                     && row.status == Pending && row.accountedCost == None && row.responseCount == 0
                     && row.reservedCost == Reservation(t) && row.reservedTokens == ReservedTokens(t)
                     && row.ledger.digest == t && row.ledger.audioBytes == 0 && row.ledger.responses == []
                     && row.ledger.tools == map[] && row.ledger.reasoning == [] && row.ledger.embeddings == map[]
                     && row.ledger.live == None && row.ledger.transcripts == []
                else r.store == s)
  {
    TotalsExact(s, t);
    hide TotalsOf, Reservation, ReservedTokens, ReceiptDeadline, Sum;
  }

  /** The reason of a refusal is the first condition that fails, in the order of the checks. */
  lemma {:induction false} ReserveReason(s: Store, id: SessionId, t: Terms, now: int, quotas: QuotaReads)
    ensures var l, org := t.limits, t.limits.organization;
            var used, held := Sum(EventCosts(s, org)), Sum(HoldingCosts(s, org));
            var tokens := Sum(EventTokens(s, org)) + Sum(HoldingTokens(s, org)) + ReservedTokens(t) as real;
            Reserve(s, id, t, now, quotas).outcome ==
            if Reservation(t) + Sum(TakenCosts(s, org, l.budgetReference)) + used > l.remainingBudget then
              Refused(BudgetExhausted)
            else
              match quotas.quota
              case None => Refused(QuotaUninitialized)
              case Some(q) =>
                if q.dailyLimit >= 0 && quotas.daily as real >= q.dailyLimit as real * q.hardBlock then
                  Refused(DailyQuota)
                else if q.agentChatLimit >= 0 && quotas.feature as real >= q.agentChatLimit as real * q.hardBlock then
                  Refused(FeatureQuota)
                else if q.monthlyCostLimit > 0.0 && used + held + Reservation(t) > q.monthlyCostLimit * q.hardBlock then
                  Refused(MonthlyCostQuota)
                else if q.monthlyTokenLimit >= 0 && tokens > q.monthlyTokenLimit as real * q.hardBlock then
                  Refused(MonthlyTokenQuota)
                else if id in s.rows then Refused(DuplicateId) else Accepted
  {
    TotalsExact(s, t);
    hide TotalsOf, Reservation, ReservedTokens, ReceiptDeadline, Sum;
  }

  /**
   * After every accepted reserve the organization's usage and unreleased holds together are within the monthly cost
   * limit, and its usage and held tokens within the monthly token limit, where those limits apply.
   */
  lemma {:induction false} ReserveKeepsQuotas(s: Store, id: SessionId, t: Terms, now: int, quotas: QuotaReads)
    requires Reserve(s, id, t, now, quotas).outcome.Accepted?
    ensures quotas.quota.Some?
    ensures var s', q, org := Reserve(s, id, t, now, quotas).store, quotas.quota.value, t.limits.organization;
            && (q.monthlyCostLimit > 0.0 ==>
                  Sum(EventCosts(s', org)) + Sum(HoldingCosts(s', org)) <= q.monthlyCostLimit * q.hardBlock)
            && (q.monthlyTokenLimit >= 0 ==>
                  Sum(EventTokens(s', org)) + Sum(HoldingTokens(s', org)) <= q.monthlyTokenLimit as real * q.hardBlock)
  {
    ReserveIff(s, id, t, now, quotas);
    var s', org := Reserve(s, id, t, now, quotas).store, t.limits.organization;
    hide Reserve, Reservation, ReservedTokens, MayReserve;
    HeldAfter(s, s', id, t);
    assert MayReserve(s, t, quotas);
    hide Sum, HoldingCosts, HoldingTokens;
    assert Sum(EventCosts(s', org)) == Sum(EventCosts(s, org)) && Sum(EventTokens(s', org)) == Sum(EventTokens(s, org));
    MayReserveQuotas(s, t, quotas);
  }

  lemma {:induction false} MayReserveQuotas(s: Store, t: Terms, quotas: QuotaReads)
    requires MayReserve(s, t, quotas)
    ensures quotas.quota.Some?
    ensures var q, org := quotas.quota.value, t.limits.organization;
            && (q.monthlyCostLimit > 0.0 ==>
                  Sum(EventCosts(s, org)) + Sum(HoldingCosts(s, org)) + Reservation(t)
                  <= q.monthlyCostLimit * q.hardBlock)
            && (q.monthlyTokenLimit >= 0 ==>
                  Sum(EventTokens(s, org)) + Sum(HoldingTokens(s, org)) + ReservedTokens(t) as real
                  <= q.monthlyTokenLimit as real * q.hardBlock)
  {
    hide Sum, EventCosts, HoldingCosts, EventTokens, HoldingTokens, Reservation, ReservedTokens, TakenCosts;
  }

  lemma {:induction false} HeldAfter(s: Store, s': Store, id: SessionId, t: Terms)
    requires id !in s.rows && s'.rows.Keys == s.rows.Keys + {id} && forall i :: i in s.rows ==> s'.rows[i] == s.rows[i]
    requires s'.rows[id].organization == t.limits.organization && s'.rows[id].status == Pending
    requires s'.rows[id].reservedCost == Reservation(t) && s'.rows[id].reservedTokens == ReservedTokens(t)
    ensures Sum(HoldingCosts(s', t.limits.organization)) == Sum(HoldingCosts(s, t.limits.organization)) + Reservation(t)
    ensures Sum(HoldingTokens(s', t.limits.organization)) ==
            Sum(HoldingTokens(s, t.limits.organization)) + ReservedTokens(t) as real
  {
    hide Sum, Reservation, ReservedTokens;
    var org := t.limits.organization;
    assert forall i :: i in s.rows ==> (Holding(s', i, org) <==> Holding(s, i, org));
    assert Holding(s', id, org);
    hide Holding;
    assert HoldingCosts(s', org) == HoldingCosts(s, org)[id := Reservation(t)];
    assert HoldingTokens(s', org) == HoldingTokens(s, org)[id := ReservedTokens(t) as real];
    assert id !in HoldingCosts(s, org) && id !in HoldingTokens(s, org);
    hide HoldingCosts, HoldingTokens;
    SumInsert(HoldingCosts(s, org), id, Reservation(t));
    SumInsert(HoldingTokens(s, org), id, ReservedTokens(t) as real);
  }

  // --- receipts of responses

  /** The usage of a receipt is present and within both ceilings. */
  predicate Priced(r: Route, usage: Option<(int, int)>)
    requires r.Realtime?
  {
    && usage.Some? && 0 <= usage.value.0 <= r.price.maximumInputTokens && 0 <= usage.value.1 <= r.maximumOutputTokens
  }

  /** The event a receipt leaves: the exact price and tokens when priced, an unknown zero otherwise. */
  ghost predicate PricedEvent(t: Terms, receipt: Receipt, event: Event) {
    && t.limits.route.Realtime? && event.organization == t.limits.organization
    && var r := t.limits.route;
       if Priced(r, receipt.usage) then
         && event.known && event.tokens == receipt.usage.value.0 + receipt.usage.value.1
         && event.cost == (receipt.usage.value.0 as real * Larger(r.price.inputUsdPerMillion, r.audioInputUsdPerMillion)
                           + receipt.usage.value.1 as real
                             * Larger(r.price.outputUsdPerMillion, r.audioOutputUsdPerMillion)) / 1000000.0
       else !event.known && event.tokens == 0 && event.cost == 0.0
  }

  /** The first admission bound to a provider id. */
  ghost predicate FirstWith(rs: seq<Response>, k: nat, responseId: string) {
    && k < |rs| && rs[k].responseId == Some(responseId)
    && forall m :: 0 <= m < k ==> rs[m].responseId != Some(responseId)
  }

  /**
   * A response receipt is accepted exactly when the first admission bound to its id is not settled yet; it settles
   * that one with the exact price, and nothing else.
   */
  lemma {:induction false} ResponseDoneIff(s: Store, id: SessionId, t: Terms, receipt: Receipt)
    requires id in s.rows ==> s.rows[id].organization == t.limits.organization
    requires ResponseEvent(id, receipt.id) in s.events ==>
               id in s.rows && exists k: nat :: FirstWith(s.rows[id].ledger.responses, k, receipt.id)
                                           && s.rows[id].ledger.responses[k].done
    ensures var r := ResponseDone(s, id, t, receipt);
            && (r.outcome.Accepted? <==>
                  && t.limits.route.Realtime? && id in s.rows
                  && exists k: nat :: FirstWith(s.rows[id].ledger.responses, k, receipt.id)
                                 && !s.rows[id].ledger.responses[k].done)
            && (if r.outcome.Accepted? then ReceiptEffect(s, r.store, id, t, receipt) else r.store == s)
  {
    if t.limits.route.Realtime? && id in s.rows {
      var rs := s.rows[id].ledger.responses;
      var k := FirstBound(rs, receipt.id);
      assert k < |rs| ==> FirstWith(rs, k, receipt.id);
      if receipt.usage.Some? && Priced(t.limits.route, receipt.usage) {
        ResponsePriceExact(t.limits.route, receipt.usage.value.0, receipt.usage.value.1);
      }
      hide PricedResponse, Larger, FirstBound;
      if k < |rs| && !rs[k].done {
        var s' := ResponseDone(s, id, t, receipt).store;
        assert s'.rows[id].ledger.responses[k] == rs[k].(done := true,
                                                        estimate := s'.rows[id].ledger.responses[k].estimate);
        assert ReceiptEffect(s, s', id, t, receipt);
      }
    }
  }

  /** One admission settled and one event added, with the price of the receipt. */
  ghost predicate ReceiptEffect(s: Store, s': Store, id: SessionId, t: Terms, receipt: Receipt) {
    && id in s.rows && id in s'.rows && t.limits.route.Realtime? && ResponseEvent(id, receipt.id) in s'.events
    && var event := s'.events[ResponseEvent(id, receipt.id)];
       && PricedEvent(t, receipt, event)
       && s'.events == s.events[ResponseEvent(id, receipt.id) := event]
       && exists k: nat ::
            && FirstWith(s.rows[id].ledger.responses, k, receipt.id)
            && s' == Store(s.rows[id := s.rows[id].(ledger := s.rows[id].ledger.(
                                 responses := s.rows[id].ledger.responses[k := s.rows[id].ledger.responses[k].(
                                   done := true, estimate := if event.known then Some(event.cost) else None)]))],
                           s'.events)
  }
}
