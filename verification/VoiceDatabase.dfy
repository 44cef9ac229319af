/**
 * The two tables that the voice ledger and the sweeper update in place. Every method is one transaction, proved
 * against the transition of the same name; `Valid` says that some run of transactions leads to the contents, and
 * every method keeps it, so the results about reachable states hold after each of them.
 */
module VoiceDatabase {
  import opened Options
  import opened Sums
  import opened Utf8
  import opened VoiceConfig
  import L = VoiceLedger
  import opened VoiceLedger
  import VoiceInvariants
  import opened VoiceBudget

  /** The aggregate `SUM` of the database. */
  method Total<K(!new)>(m: map<K, real>) returns (total: real)
    ensures total == Sum(m)
  {
    var rest := m;
    total := 0.0;
    while rest != map[]
      invariant total + Sum(rest) == Sum(m)
      decreases |rest|
    {
      var k :| k in rest;
      SumRemove(rest, k);
      total := total + rest[k];
      rest := rest - {k};
    }
  }

  class Database {
    var rows: map<SessionId, Row>
    var events: map<EventId, Event>
    /** Which receipt each session's ledger object was created with. */
    ghost const fleet: Fleet

    function Contents(): Store
      reads this
    {
      Store(rows, events)
    }

    ghost predicate Valid()
      reads this
    {
      Reachable(fleet, Contents())
    }

    constructor (ghost fleet: Fleet)
      ensures Valid() && Contents() == Store(map[], map[]) && this.fleet == fleet
    {
      rows, events := map[], map[];
      this.fleet := fleet;
      ReachableStart(fleet);
    }

    method Reserve(id: SessionId, t: Terms, now: int, quotas: QuotaReads) returns (outcome: Outcome)
      requires Valid() && t == fleet(id)
      modifies this
      ensures Valid() && Reply(Contents(), outcome) == L.Reserve(old(Contents()), id, t, now, quotas)
      ensures forall organization, reference, budget :: Approved(fleet, organization, reference, budget) ==>
                Sum(BudgetHolds(Contents(), organization, reference)) <= budget
    {
      Kept(fleet, Contents(), DoReserve(id, now, quotas));
      forall organization, reference, budget | Approved(fleet, organization, reference, budget)
        ensures var s := L.Reserve(Contents(), id, t, now, quotas).store;
                && Sum(BudgetHolds(Contents(), organization, reference)) <= budget
                && Sum(BudgetHolds(s, organization, reference)) <= budget
      {
        ReachableBudget(fleet, Contents(), organization, reference, budget);
        ReachableBudget(fleet, L.Reserve(Contents(), id, t, now, quotas).store, organization, reference, budget);
      }
      hide Reachable, Approved;
      hide Sum, Reservation, ReservedTokens, ReceiptDeadline;
      var organization, reference := t.limits.organization, t.limits.budgetReference;
      var competing := Total(BudgetHolds(Contents(), organization, reference));
      var used := Total(UsageCosts(Contents(), organization));
      var tokens := Total(UsageTokens(Contents(), organization));
      var openCost := Total(OpenHolds(Contents(), organization));
      var openTokens := Total(OpenTokens(Contents(), organization));
      var refusal := ReserveRefusal(t, Totals(competing, used, tokens, openCost, openTokens), quotas);
      if refusal.Some? {
        return Refused(refusal.value);
      }
      if id in rows {
        return Refused(DuplicateId);
      }
      rows := rows[id := FreshRow(t, now)];
      return Accepted;
    }

    /** Every admission: lock the row, check it is open and unexpired, apply the change or refuse. */
    method Update(id: SessionId, t: Terms, now: int, admission: Admission) returns (outcome: Outcome)
      requires Valid() && t == fleet(id)
      modifies this
      ensures Valid() && Reply(Contents(), outcome) == L.Update(old(Contents()), id, t, now, admission)
    {
      Kept(fleet, Contents(), DoUpdate(id, now, admission));
      hide Reachable;
      hide Admit;
      if id !in rows || !Open(rows[id]) {
        return Refused(SessionClosed);
      }
      if rows[id].ledger.expiresAt <= now {
        return Refused(SessionExpired);
      }
      match Admit(id, t, admission, rows[id]) {
        case Reject(reason) => outcome := Refused(reason);
        case Same => outcome := Replayed;
        case Changed(row) =>
          rows := rows[id := row];
          outcome := Accepted;
      }
    }

    /** The receipt, size and quota checks run before, and outside, the locked admission. */
    method EmbeddingAttempt(
      id: SessionId, t: Terms, now: int, key: Key, query: string, quotaAllowed: bool, turn: bool)
      returns (outcome: Outcome)
      requires Valid() && t == fleet(id)
      modifies this
      ensures Valid() && Reply(Contents(), outcome) ==
              L.EmbeddingAttempt(old(Contents()), id, t, now, key, query, quotaAllowed, turn)
    {
      Kept(fleet, Contents(), DoEmbeddingAttempt(id, now, key, query, quotaAllowed, turn));
      hide Reachable;
      var price := t.limits.embedding;
      if price.None? || price.value.model != t.embeddingsModel || price.value.validUntil <= now {
        return Refused(EmbeddingReceipt);
      }
      if query == "" || ByteLength(query) > price.value.maximumInputTokens {
        return Refused(EmbeddingInput);
      }
      if !quotaAllowed {
        return Refused(EmbeddingQuota);
      }
      outcome := Update(id, t, now, Embed(key, query, turn));
    }

    method InsertIfMissing(e: EventId, event: Event)
      modifies this`events
      ensures events == InsertIfAbsent(old(events), e, event)
    {
      if e !in events {
        events := events[e := event];
      }
    }

    method ResponseDone(id: SessionId, t: Terms, receipt: Receipt) returns (outcome: Outcome)
      requires Valid() && t == fleet(id)
      modifies this
      ensures Valid() && Reply(Contents(), outcome) == L.ResponseDone(old(Contents()), id, t, receipt)
    {
      Kept(fleet, Contents(), DoResponseDone(id, receipt));
      hide Reachable;
      hide ReceiptCost;
      if !t.limits.route.Realtime? {
        return Refused(UnsupportedRoute);
      }
      var cost := ReceiptCost(t.limits.route, receipt.usage);
      if id !in rows {
        return Refused(SessionMissing);
      }
      var row := rows[id];
      var responses := row.ledger.responses;
      var i := FirstBound(responses, receipt.id);
      if i == |responses| {
        return Refused(UnadmittedResponse);
      }
      if responses[i].done {
        return Replayed;
      }
      PricedUsage(t.limits.route, receipt.usage);
      var tokens := if cost.Some? then receipt.usage.value.0 + receipt.usage.value.1 else 0;
      responses := responses[i := responses[i].(done := true, estimate := cost)];
      rows := rows[id := row.(ledger := row.ledger.(responses := responses))];
      InsertIfMissing(ResponseEvent(id, receipt.id), Event(row.organization, CostOrZero(cost), tokens, cost.Some?));
      return Accepted;
    }

    method EmbeddingDone(id: SessionId, t: Terms, key: Key, result: Option<EmbeddingResult>)
      returns (outcome: Outcome)
      requires Valid() && t == fleet(id)
      modifies this
      ensures Valid() && Reply(Contents(), outcome) == L.EmbeddingDone(old(Contents()), id, t, key, result)
    {
      Kept(fleet, Contents(), DoEmbeddingDone(id, key, result));
      hide Reachable;
      hide Times;
      if t.limits.embedding.None? {
        return Refused(EmbeddingReceipt);
      }
      var price := t.limits.embedding.value;
      var valid := WithinReceipt(price, result);
      var tokens := if valid then result.value.inputTokens else 0;
      var cost := Times(tokens as real, price.inputUsdPerMillion) / MILLION;
      if id !in rows {
        return Refused(SessionMissing);
      }
      var row := rows[id];
      if key !in row.ledger.embeddings {
        return Refused(UnadmittedEmbedding);
      }
      if row.ledger.embeddings[key] != TransportMayStart {
        return Replayed;
      }
      var state := if valid then Received else Unresolved;
      rows := rows[id := row.(ledger := row.ledger.(embeddings := row.ledger.embeddings[key := state]))];
      InsertIfMissing(EmbeddingEvent(key), Event(row.organization, cost, tokens, valid));
      return Accepted;
    }

    method LiveUsage(id: SessionId, t: Terms, usage: Usage) returns (outcome: Outcome)
      requires Valid() && t == fleet(id)
      modifies this
      ensures Valid() && Reply(Contents(), outcome) == L.LiveUsage(old(Contents()), id, t, usage)
    {
      Kept(fleet, Contents(), DoLiveUsage(id, usage));
      hide Reachable;
      hide Times;
      if !t.limits.route.Live? {
        return Refused(UnsupportedRoute);
      }
      if usage.seconds.None? || usage.seconds.value < 0.0 {
        return Refused(InvalidUsage);
      }
      var seconds := usage.seconds.value;
      if id !in rows {
        return Refused(SessionMissing);
      }
      var row := rows[id];
      if row.ledger.live.None? {
        return Refused(UsageBeforeStart);
      }
      var live := row.ledger.live.value;
      if live.seconds.Some? && seconds < live.seconds.value {
        return Refused(UsageRegressed);
      }
      if usage.final && usage.providerId != live.providerId {
        return Refused(FinalMismatch);
      }
      if usage.final && usage.reason !in FINAL_REASONS {
        return Refused(FinalReason);
      }
      if live.finalized {
        if usage.final && Some(seconds) == live.seconds {
          return if Some(usage.reason) != live.reason then Refused(FinalConflict) else Replayed;
        }
        return Refused(UsageAfterFinal);
      }
      var within := seconds <= (t.limits.maximumSeconds + CLOSE_SECONDS + CLEANUP_SECONDS) as real;
      live := live.(seconds := Some(seconds), finalized := usage.final,
                    reason := if usage.final then Some(usage.reason) else None, within := within);
      rows := rows[id := row.(ledger := row.ledger.(live := Some(live)))];
      events := events[DurationEvent(id) := Event(row.organization, Times(seconds, UsdPerSecond(t)), 0, true)];
      if usage.final {
        events := events - {HoldEvent(id)};
      }
      return if within then Accepted else Refused(OutsideReservation);
    }

    method Close(id: SessionId, t: Terms) returns (outcome: Outcome)
      requires Valid() && t == fleet(id)
      modifies this
      ensures Valid() && Reply(Contents(), outcome) == L.Close(old(Contents()), id, t)
    {
      Kept(fleet, Contents(), DoClose(id));
      hide Reachable;
      hide ClosingCost;
      if id !in rows {
        return Replayed;
      }
      var cost := ClosingCost(t, rows[id].ledger);
      rows := rows[id := rows[id].(status := if cost.Some? then Closed else Uncertain, accountedCost := cost)];
      return Accepted;
    }

    method ChargeFullReservation(id: SessionId)
      requires id in rows
      modifies this
      ensures Contents() == ChargeHold(old(Contents()), id)
    {
      var charge := rows[id].reservedCost;
      if HoldEvent(id) !in events {
        events := events[HoldEvent(id) := Event(rows[id].organization, charge, 0, true)];
      } else if events[HoldEvent(id)].cost < charge {
        events := events[HoldEvent(id) := events[HoldEvent(id)].(cost := charge)];
      }
      assert events == old(events)[HoldEvent(id) := HoldCharge(old(rows)[id], Lookup(old(events), HoldEvent(id)))];
      rows := rows[id := rows[id].(status := Closed, accountedCost := Some(charge))];
    }

    /** The sweep: candidates in any order, each re-read and charged only if still due. */
    method ReleaseExpiredVoiceHolds(organization: string, now: int) returns (released: nat)
      requires Valid()
      modifies this
      ensures Valid() && Contents() == Sweep(old(Contents()), organization, now)
      ensures released == |DueSessions(old(Contents()), organization, now)|
    {
      hide Reachable, Sweep, DueSessions;
      Kept(fleet, Contents(), DoSweep(organization, now));
      released := SweepCandidates(organization, now);
    }

    method SweepCandidates(organization: string, now: int) returns (released: nat)
      modifies this
      ensures Contents() == Sweep(old(Contents()), organization, now)
      ensures released == |DueSessions(old(Contents()), organization, now)|
    {
      hide SweptSoFar, Sweep, Sweepable, Unreleased, AllDue;
      ghost var before := Contents();
      ghost var due: set<SessionId> := {};
      var pending := set id | id in rows && rows[id].organization == organization && Unreleased(rows[id]);
      NothingSwept(before, organization, now, pending);
      released := 0;
      while pending != {}
        invariant pending <= before.rows.Keys
        invariant AllDue(before, organization, now, pending, due)
        invariant released == |due|
        invariant SweptSoFar(before, Contents(), due)
        decreases |pending|
      {
        var id :| id in pending;
        var charged := SweepOne(organization, now, id, before, pending, due);
        pending := pending - {id};
        if charged {
          due := due + {id};
          released := released + 1;
        }
      }
      SweptAll(before, Contents(), organization, now, due);
    }

    /** One candidate, re-read under its lock. */
    method SweepOne(
      organization: string, now: int, id: SessionId, ghost before: Store, ghost pending: set<SessionId>,
      ghost due: set<SessionId>)
      returns (charged: bool)
      requires SweptSoFar(before, Contents(), due) && AllDue(before, organization, now, pending, due)
      requires id in pending && id in before.rows
      modifies this
      ensures id !in due && charged == Sweepable(before.rows[id], organization, now)
      ensures SweptSoFar(before, Contents(), if charged then due + {id} else due)
      ensures AllDue(before, organization, now, pending - {id}, if charged then due + {id} else due)
    {
      Untouched(before, Contents(), organization, now, pending, due, id);
      hide SweptSoFar, ChargeHold, Sweepable;
      charged := rows[id].accountedCost.None? && Sweepable(rows[id], organization, now);
      if charged {
        ChargeOneMore(before, Contents(), due, id);
        ChargeFullReservation(id);
      }
    }
  }

  /** One more transaction keeps the contents reachable. */
  lemma {:induction false} Kept(fleet: Fleet, s: Store, a: Action)
    requires Reachable(fleet, s)
    ensures Reachable(fleet, Step(fleet, s, a))
  {
    hide Reachable;
    ReachableStep(fleet, s, a);
  }

  function DueSessions(s: Store, organization: string, now: int): set<SessionId> {
    set id | id in s.rows && Sweepable(s.rows[id], organization, now)
  }

  /** Everything that is due has been charged already or is still pending. */
  ghost predicate AllDue(
    before: Store, organization: string, now: int, pending: set<SessionId>, due: set<SessionId>)
  {
    && due !! pending
    && (forall id :: id in due ==> id in before.rows && Sweepable(before.rows[id], organization, now))
    && (forall id :: id in before.rows && Sweepable(before.rows[id], organization, now) ==> id in due || id in pending)
  }

  lemma PricedUsage(r: Route, usage: Option<(int, int)>)
    requires r.Realtime?
    ensures ReceiptCost(r, usage).Some? ==> usage.Some? && usage.value.0 >= 0 && usage.value.1 >= 0
  {
  }

  /** Exactly the rows in `due` have been charged. */
  ghost predicate SweptSoFar(before: Store, s: Store, due: set<SessionId>) {
    && s.rows.Keys == before.rows.Keys && due <= before.rows.Keys
    && (forall id :: id in s.rows ==>
          s.rows[id] == if id in due then Settled(before.rows[id], Some(before.rows[id].reservedCost))
                        else before.rows[id])
    && (forall e: EventId :: Lookup(s.events, e) ==
          if e.HoldEvent? && e.session in due then
            Some(HoldCharge(before.rows[e.session], Lookup(before.events, e)))
          else Lookup(before.events, e))
  }

  lemma NothingSwept(before: Store, organization: string, now: int, pending: set<SessionId>)
    requires pending ==
             set id | id in before.rows && before.rows[id].organization == organization && Unreleased(before.rows[id])
    ensures SweptSoFar(before, before, {})
    ensures AllDue(before, organization, now, pending, {})
  {
  }

  lemma Untouched(
    before: Store, s: Store, organization: string, now: int, pending: set<SessionId>, due: set<SessionId>,
    id: SessionId)
    requires SweptSoFar(before, s, due) && AllDue(before, organization, now, pending, due)
    requires id in pending && id in before.rows
    ensures id !in due && id in s.rows && s.rows[id] == before.rows[id]
    ensures Sweepable(s.rows[id], organization, now) ==> s.rows[id].accountedCost.None?
  {
  }

  lemma ChargeOneMore(before: Store, s: Store, due: set<SessionId>, id: SessionId)
    requires SweptSoFar(before, s, due) && id in s.rows && id !in due
    ensures SweptSoFar(before, ChargeHold(s, id), due + {id})
  {
    var s' := ChargeHold(s, id);
    assert Lookup(s.events, HoldEvent(id)) == Lookup(before.events, HoldEvent(id));
    forall e: EventId | e != HoldEvent(id) ensures Lookup(s'.events, e) == Lookup(s.events, e) {
    }
  }

  lemma SweptAll(before: Store, s: Store, organization: string, now: int, due: set<SessionId>)
    requires SweptSoFar(before, s, due)
    requires AllDue(before, organization, now, {}, due)
    ensures s == Sweep(before, organization, now)
    ensures due == DueSessions(before, organization, now)
  {
    hide Sweep, Sweepable;
    var swept := Sweep(before, organization, now);
    VoiceInvariants.SweepKeys(before, organization, now);
    forall id | id in s.rows ensures s.rows[id] == swept.rows[id] {
      VoiceInvariants.SweepRowOf(before, organization, now, id);
    }
    forall e: EventId ensures Lookup(s.events, e) == Lookup(swept.events, e) {
      VoiceInvariants.SweepLookup(before, organization, now, e);
    }
    SameLookups(s.events, swept.events);
    assert s.rows == swept.rows;
  }

  lemma SameLookups(a: map<EventId, Event>, b: map<EventId, Event>)
    requires forall e: EventId :: Lookup(a, e) == Lookup(b, e)
    ensures a == b
  {
    forall e: EventId ensures e in a <==> e in b {
      assert Lookup(a, e) == Lookup(b, e);
    }
    forall e | e in a ensures a[e] == b[e] {
      assert Lookup(a, e) == Lookup(b, e);
    }
  }
}
