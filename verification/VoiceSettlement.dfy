/** Settling, closing and sweeping written out, and where every settled event of a run comes from. */
module VoiceSettlement {
  import opened Options
  import opened Sums
  import opened VoiceConfig
  import opened VoiceLedger
  import opened VoiceInvariants
  import opened VoiceAdmissions
  import opened VoiceExact

  // --- embeddings

  /** A result inside its receipt: the priced model, no fallback, counted tokens, one finite vector as asked. */
  predicate GoodResult(t: Terms, result: Option<EmbeddingResult>)
    requires t.limits.embedding.Some?
  {
    && result.Some? && result.value.model == t.limits.embedding.value.model && !result.value.fallbackUsed
    && 1 <= result.value.inputTokens <= t.limits.embedding.value.maximumInputTokens
    && |result.value.vectors| == 1 && |result.value.vectors[0]| == result.value.dimensions == result.value.asked
    && forall c :: c in result.value.vectors[0] ==> c.Some?
  }

  ghost predicate EmbeddedEvent(t: Terms, result: Option<EmbeddingResult>, event: Event) {
    && t.limits.embedding.Some? && event.organization == t.limits.organization
    && if GoodResult(t, result) then
         && event.known && event.tokens == result.value.inputTokens
         && event.cost == result.value.inputTokens as real * t.limits.embedding.value.inputUsdPerMillion / 1000000.0
       else !event.known && event.tokens == 0 && event.cost == 0.0
  }

  lemma {:induction false} GoodResultExact(t: Terms, result: Option<EmbeddingResult>)
    requires t.limits.embedding.Some?
    ensures WithinReceipt(t.limits.embedding.value, result) <==> GoodResult(t, result)
  {
    if result.Some? && |result.value.vectors| == 1 {
      var v := result.value.vectors[0];
      assert (forall c :: c in v ==> c.Some?) <==> forall i :: 0 <= i < |v| ==> v[i].Some?;
    }
  }

  /** An embedding result is accepted exactly when its attempt is still open; it resolves that one and prices it. */
  lemma {:induction false} EmbeddingDoneIff(
    s: Store, id: SessionId, t: Terms, key: Key, result: Option<EmbeddingResult>)
    requires id in s.rows ==> s.rows[id].organization == t.limits.organization
    requires EmbeddingEvent(key) in s.events ==>
               id in s.rows && key in s.rows[id].ledger.embeddings
               && s.rows[id].ledger.embeddings[key] != TransportMayStart
    ensures var r := EmbeddingDone(s, id, t, key, result);
            && (r.outcome.Accepted? <==>
                  && t.limits.embedding.Some? && id in s.rows && key in s.rows[id].ledger.embeddings
                  && s.rows[id].ledger.embeddings[key] == TransportMayStart)
            && (if r.outcome.Accepted? then
                  && EmbeddingEvent(key) in r.store.events
                  && EmbeddedEvent(t, result, r.store.events[EmbeddingEvent(key)])
                  && r.store == Store(
                       s.rows[id := s.rows[id].(ledger := s.rows[id].ledger.(
                         embeddings := s.rows[id].ledger.embeddings[
                           key := if GoodResult(t, result) then Received else Unresolved]))],
                       s.events[EmbeddingEvent(key) := r.store.events[EmbeddingEvent(key)]])
                else r.store == s)
  {
    if t.limits.embedding.Some? {
      GoodResultExact(t, result);
    }
    hide WithinReceipt, GoodResult;
    ResultTokens(t, result);
  }

  lemma {:induction false} ResultTokens(t: Terms, result: Option<EmbeddingResult>)
    ensures t.limits.embedding.Some? && GoodResult(t, result) ==> result.Some? && result.value.inputTokens >= 1
  {
  }

  // --- every settled event of a run

  predicate Settles(e: EventId) {
    e.ResponseEvent? || e.EmbeddingEvent?
  }

  /** A settled event is never changed or removed. */
  lemma {:induction false} SettledKept(fleet: Fleet, s: Store, a: Action, e: EventId)
    requires e in s.events && Settles(e)
    ensures e in Step(fleet, s, a).events && Step(fleet, s, a).events[e] == s.events[e]
  {
    hide Admit, ReserveRefusal, TotalsOf, ClosingCost, ReceiptCost, Times, FirstBound, WithinReceipt;
    if a.DoSweep? {
      SweepLookup(s, a.organization, a.now, e);
      hide Sweep;
    }
  }

  /** The action that settles an event, with what it leaves behind. */
  ghost predicate SettledAt(fleet: Fleet, s: Store, a: Action, e: EventId, event: Event) {
    && OutcomeOf(fleet, s, a).Accepted?
    && match e
       case ResponseEvent(id, responseId) =>
         a.DoResponseDone? && a.id == id && a.receipt.id == responseId && PricedEvent(fleet(id), a.receipt, event)
       case EmbeddingEvent(key) =>
         a.DoEmbeddingDone? && a.key == key && a.id == key.session && EmbeddedEvent(fleet(a.id), a.result, event)
       case _ => false
  }

  /** Only receipts of responses and results of embeddings add settled events. */
  lemma {:induction false} OthersAddNone(fleet: Fleet, s: Store, a: Action, e: EventId)
    requires Settles(e) && !a.DoResponseDone? && !a.DoEmbeddingDone?
    ensures e in Step(fleet, s, a).events ==> e in s.events
  {
    hide Admit, ReserveRefusal, TotalsOf, ClosingCost, Times;
    if a.DoSweep? {
      SweepLookup(s, a.organization, a.now, e);
      hide Sweep;
    }
  }

  lemma {:induction false} NewSettled(fleet: Fleet, s: Store, a: Action, e: EventId)
    requires Inv(fleet, s) && Settles(e) && e !in s.events && e in Step(fleet, s, a).events
    ensures SettledAt(fleet, s, a, e, Step(fleet, s, a).events[e])
  {
    hide Inv, SettledAt, Settles;
    if !a.DoResponseDone? && !a.DoEmbeddingDone? {
      OthersAddNone(fleet, s, a, e);
    } else {
      hide ResponseDone, EmbeddingDone;
      if a.DoResponseDone? {
        NewResponse(fleet, s, a.id, a.receipt, e);
      } else {
        NewEmbedding(fleet, s, a.id, a.key, a.result, e);
      }
    }
  }

  lemma {:induction false} NewResponse(fleet: Fleet, s: Store, id: SessionId, receipt: Receipt, e: EventId)
    requires Inv(fleet, s) && Settles(e) && e !in s.events
    requires e in ResponseDone(s, id, fleet(id), receipt).store.events
    ensures SettledAt(fleet, s, DoResponseDone(id, receipt), e, ResponseDone(s, id, fleet(id), receipt).store.events[e])
  {
    hide Inv, ResponseDone, PricedEvent, FirstWith;
    SettledFacts(fleet, s, id, receipt.id);
    ResponseDoneIff(s, id, fleet(id), receipt);
    EffectEvents(s, ResponseDone(s, id, fleet(id), receipt).store, id, fleet(id), receipt);
    hide ReceiptEffect;
  }

  lemma {:induction false} EffectEvents(s: Store, s': Store, id: SessionId, t: Terms, receipt: Receipt)
    ensures ReceiptEffect(s, s', id, t, receipt) ==>
              var e := ResponseEvent(id, receipt.id);
              e in s'.events && s'.events == s.events[e := s'.events[e]] && PricedEvent(t, receipt, s'.events[e])
  {
    hide PricedEvent, FirstWith;
  }

  /** What the invariant says of an event that a response receipt would insert. */
  lemma {:induction false} SettledFacts(fleet: Fleet, s: Store, id: SessionId, responseId: string)
    requires Inv(fleet, s)
    ensures id in s.rows ==> s.rows[id].organization == fleet(id).limits.organization
    ensures ResponseEvent(id, responseId) in s.events ==>
              id in s.rows && exists k: nat :: FirstWith(s.rows[id].ledger.responses, k, responseId)
                                               && s.rows[id].ledger.responses[k].done
  {
    if id in s.rows {
      RowOf(fleet, s, id);
    }
    hide Capped, EmbeddingsAccounted, DurationAccounted, HoldAccounted, ReleaseJustified, Reservation;
    var e := ResponseEvent(id, responseId);
    if e in s.events {
      assert EventInv(s, e);
      hide Inv;
      var rs := s.rows[id].ledger.responses;
      assert SettledBy(rs, responseId);
      var k :| 0 <= k < |rs| && rs[k].done && rs[k].responseId == Some(responseId);
      assert SettledFirst(id, rs, k, s.events);
      assert FirstWith(rs, k, responseId);
    }
  }

  lemma {:induction false} NewEmbedding(
    fleet: Fleet, s: Store, id: SessionId, key: Key, result: Option<EmbeddingResult>, e: EventId)
    requires Inv(fleet, s) && Settles(e) && e !in s.events
    requires e in EmbeddingDone(s, id, fleet(id), key, result).store.events
    ensures SettledAt(fleet, s, DoEmbeddingDone(id, key, result), e,
                      EmbeddingDone(s, id, fleet(id), key, result).store.events[e])
  {
    hide Inv, EmbeddingDone, EmbeddedEvent, GoodResult;
    EmbeddingFacts(fleet, s, id, key);
    if id in s.rows && key in s.rows[id].ledger.embeddings {
      EmbeddingDoneIff(s, id, fleet(id), key, result);
      assert e == EmbeddingEvent(key);
    } else {
      UnknownAttemptIgnored(s, id, fleet(id), key, result);
    }
  }

  lemma {:induction false} UnknownAttemptIgnored(
    s: Store, id: SessionId, t: Terms, key: Key, result: Option<EmbeddingResult>)
    requires !(id in s.rows && key in s.rows[id].ledger.embeddings)
    ensures EmbeddingDone(s, id, t, key, result).store == s
  {
    hide WithinReceipt, Times;
  }

  lemma {:induction false} EmbeddingFacts(fleet: Fleet, s: Store, id: SessionId, key: Key)
    requires Inv(fleet, s)
    ensures id in s.rows ==> s.rows[id].organization == fleet(id).limits.organization
    ensures id in s.rows && key in s.rows[id].ledger.embeddings ==> key.session == id
    ensures id in s.rows && key in s.rows[id].ledger.embeddings && EmbeddingEvent(key) in s.events ==>
              s.rows[id].ledger.embeddings[key] != TransportMayStart
  {
    if id in s.rows {
      RowOf(fleet, s, id);
    }
    hide Inv, ResponsesAccounted, DurationAccounted, HoldAccounted, ReleaseJustified, Reservation;
  }

  /**
   * In every state of every run each response event and each embedding event was left by one accepted receipt, and
   * carries exactly the price and tokens of that receipt.
   */
  lemma {:induction false} SettledEventsExact(
    fleet: Fleet, actions: seq<Action>, states: seq<Store>, n: nat, e: EventId) returns (i: nat)
    requires Run(fleet, actions, states) && n < |states| && Settles(e) && e in states[n].events
    ensures |states| == |actions| + 1
    ensures i < n && SettledAt(fleet, states[i], actions[i], e, states[n].events[e])
  {
    hide Run, Step, Inv, SettledAt;
    RunStart(fleet, actions, states);
    RunStep(fleet, actions, states, n - 1);
    if e in states[n - 1].events {
      SettledKept(fleet, states[n - 1], actions[n - 1], e);
      i := SettledEventsExact(fleet, actions, states, n - 1, e);
    } else {
      RunKeeps(fleet, actions, states, n - 1);
      NewSettled(fleet, states[n - 1], actions[n - 1], e);
      i := n - 1;
    }
  }

  // --- Live usage

  /** When a Live receipt is recorded: a started, unfinalized session, no regression, and a proper final receipt. */
  predicate Recordable(s: Store, id: SessionId, t: Terms, usage: Usage) {
    && t.limits.route.Live? && usage.seconds.Some? && usage.seconds.value >= 0.0
    && id in s.rows && s.rows[id].ledger.live.Some?
    && var live := s.rows[id].ledger.live.value;
       && !live.finalized && (live.seconds.Some? ==> live.seconds.value <= usage.seconds.value)
       && (usage.final ==>
             && usage.providerId == live.providerId
             && (usage.reason == "close_requested" || usage.reason == "expired" || usage.reason == "content"
                 || usage.reason == "remote_hangup" || usage.reason == "connection_lost"))
  }

  /**
   * A Live receipt is recorded exactly when it is recordable, and accepted when it is also within the reserved
   * seconds; it leaves the reported seconds, their price, and no hold charge once final.
   */
  lemma {:induction false} LiveUsageIff(s: Store, id: SessionId, t: Terms, usage: Usage)
    ensures var r := LiveUsage(s, id, t, usage);
            if Recordable(s, id, t, usage) then
              var live, seconds := s.rows[id].ledger.live.value, usage.seconds.value;
              var inside := seconds <= t.limits.maximumSeconds as real + 14.0;
              var duration := Event(s.rows[id].organization, seconds * (t.limits.route.usdPerMinute / 60.0), 0, true);
              && (r.outcome == if inside then Accepted else Refused(OutsideReservation))
              && r.store.rows == s.rows[id := s.rows[id].(ledger := s.rows[id].ledger.(live := Some(
                   LiveState(live.providerId, usage.final, Some(seconds),
                             if usage.final then Some(usage.reason) else None, inside))))]
              && (forall e: EventId :: e in r.store.events <==>
                    e == DurationEvent(id) || (e in s.events && !(usage.final && e == HoldEvent(id))))
              && (forall e: EventId :: e in r.store.events ==>
                    r.store.events[e] == if e == DurationEvent(id) then duration else s.events[e])
            else r.store == s && !r.outcome.Accepted?
  {
    var seconds := t.limits.maximumSeconds;
    assert (seconds + CLOSE_SECONDS + CLEANUP_SECONDS) as real == seconds as real + 14.0;
  }

  /** The reason a Live receipt is refused: the first of its conditions that fails. */
  lemma {:induction false} LiveUsageReason(s: Store, id: SessionId, t: Terms, usage: Usage)
    requires !Recordable(s, id, t, usage)
    ensures LiveUsage(s, id, t, usage).outcome ==
            if t.limits.route.Realtime? then Refused(UnsupportedRoute)
            else if usage.seconds.None? || usage.seconds.value < 0.0 then Refused(InvalidUsage)
            else if id !in s.rows then Refused(SessionMissing)
            else if s.rows[id].ledger.live.None? then Refused(UsageBeforeStart)
            else
              var live := s.rows[id].ledger.live.value;
              if live.seconds.Some? && usage.seconds.value < live.seconds.value then Refused(UsageRegressed)
              else if usage.final && usage.providerId != live.providerId then Refused(FinalMismatch)
              else if usage.final && usage.reason !in ["close_requested", "expired", "content", "remote_hangup",
                                                       "connection_lost"] then Refused(FinalReason)
              else if !usage.final || Some(usage.seconds.value) != live.seconds then Refused(UsageAfterFinal)
              else if Some(usage.reason) == live.reason then Replayed else Refused(FinalConflict)
  {
    hide Times;
  }

  // --- close

  /** Everything a realtime session admitted is settled with a known price, and nothing of unknown cost began. */
  predicate AllKnown(data: Ledger) {
    && (forall r :: r in data.responses ==> r.done && r.estimate.Some?)
    && (forall call :: call in data.tools ==> data.tools[call].acknowledged)
    && data.reasoning == [] && data.audioBytes == 0 && data.embeddings == map[]
  }

  /** A final receipt inside the reservation and no tool, reasoning or embedding. */
  predicate FinalOnly(data: Ledger) {
    && data.live.Some? && data.live.value.finalized && data.live.value.within && data.live.value.seconds.Some?
    && data.tools == map[] && data.reasoning == [] && data.embeddings == map[]
  }

  /** Closing releases a row exactly when its spend is fully known, and accounts exactly the measured duration. */
  lemma {:induction false} CloseIff(s: Store, id: SessionId, t: Terms)
    ensures var s' := Close(s, id, t).store;
            if id !in s.rows then s' == s
            else
              var data := s.rows[id].ledger;
              var known := if t.limits.route.Realtime? then AllKnown(data) else FinalOnly(data);
              var cost := if t.limits.route.Realtime? || !known then 0.0
                          else data.live.value.seconds.value * (t.limits.route.usdPerMinute / 60.0);
              s' == Store(s.rows[id := s.rows[id].(status := if known then Closed else Uncertain,
                                                   accountedCost := if known then Some(cost) else None)], s.events)
  {
    if id in s.rows {
      var data := s.rows[id].ledger;
      assert t.limits.route.Realtime? ==> (Ambiguous(data) <==> !AllKnown(data));
      assert t.limits.route.Live? ==>
          (Confirmed(data) && !Secondary(data) && data.live.value.seconds.Some? <==> FinalOnly(data));
      hide AllKnown, FinalOnly, Ambiguous, Confirmed, Secondary;
    }
  }

  // --- sweep

  /** A row the sweep must charge: started Live, no final receipt, nothing secondary, past its deadline and margin. */
  predicate Due(row: Row, organization: string, now: int) {
    && row.organization == organization && row.accountedCost == None && row.ledger.live.Some?
    && !row.ledger.live.value.finalized && row.ledger.tools == map[] && row.ledger.reasoning == []
    && row.ledger.embeddings == map[] && row.ledger.expiresAt + 14 <= now
  }

  /** The sweep closes exactly the due rows at their whole hold, each with one charge event of at least the hold. */
  lemma {:induction false} SweepIff(s: Store, organization: string, now: int, id: SessionId)
    requires id in s.rows
    ensures var s' := Sweep(s, organization, now); var hold := s.rows[id].reservedCost;
            && s'.rows.Keys == s.rows.Keys
            && (if Due(s.rows[id], organization, now) then
                  && s'.rows[id] == s.rows[id].(status := Closed, accountedCost := Some(hold))
                  && HoldEvent(id) in s'.events && s'.events[HoldEvent(id)].cost >= hold
                  && (HoldEvent(id) !in s.events ==>
                        s'.events[HoldEvent(id)] == Event(s.rows[id].organization, hold, 0, true))
                  && (HoldEvent(id) in s.events ==>
                        s'.events[HoldEvent(id)] ==
                        s.events[HoldEvent(id)].(cost := Larger(s.events[HoldEvent(id)].cost, hold)))
                else s'.rows[id] == s.rows[id] && Lookup(s'.events, HoldEvent(id)) == Lookup(s.events, HoldEvent(id)))
            && forall e: EventId :: !e.HoldEvent? ==> Lookup(s'.events, e) == Lookup(s.events, e)
  {
    assert Sweepable(s.rows[id], organization, now) <==> Due(s.rows[id], organization, now);
    SweepKeys(s, organization, now);
    SweepRowOf(s, organization, now, id);
    SweepLookup(s, organization, now, HoldEvent(id));
    forall e: EventId | !e.HoldEvent?
      ensures Lookup(Sweep(s, organization, now).events, e) == Lookup(s.events, e)
    {
      SweepLookup(s, organization, now, e);
    }
    hide Sweep, Sweepable, Due;
  }
}
