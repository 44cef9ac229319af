/**
 * When a Live provider measures more seconds than were reserved: the exact condition, and a run in which it
 * takes a session's spend beyond its hold.
 */
module VoiceOverrun {
  import opened Options
  import opened Sums
  import opened VoiceConfig
  import opened VoiceLedger
  import opened VoiceInvariants
  import opened VoiceBudget

  /** The recorded receipt, if there is one, is flagged as inside the reservation. */
  predicate Inside(data: Ledger) {
    data.live.None? || data.live.value.seconds.None? || data.live.value.within
  }

  /** What is recorded of a Live row, from the invariant. */
  lemma {:induction false} LiveRecord(fleet: Fleet, s: Store, id: SessionId)
    requires Reachable(fleet, s) && id in s.rows && fleet(id).limits.route.Live?
    ensures var live := s.rows[id].ledger.live;
            if live.Some? && live.value.seconds.Some? then
              && live.value.seconds.value >= 0.0
              && live.value.within == (live.value.seconds.value <= ReservedSeconds(fleet(id)))
              && VoiceCost(fleet(id), s, id) == Times(live.value.seconds.value, UsdPerSecond(fleet(id)))
            else VoiceCost(fleet(id), s, id) == 0.0
  {
    ReachableInv(fleet, s);
    RowOf(fleet, s, id);
    hide Reachable, Inv, ResponsesAccounted, EmbeddingsAccounted, Capped, HoldAccounted, ReleaseJustified, Times;
  }

  /**
   * In every reachable state the duration of a Live session is within the voice part of its hold if and only if
   * the receipt was flagged as inside the reservation, and there is an overrun exactly when it was not.
   */
  lemma {:induction false} DurationWithinHoldIff(fleet: Fleet, s: Store, id: SessionId)
    requires Reachable(fleet, s) && id in s.rows && fleet(id).limits.route.Live?
    ensures var t, data := fleet(id), s.rows[id].ledger;
            && (VoiceCost(t, s, id) <= Times(ReservedSeconds(t), UsdPerSecond(t)) <==> Inside(data))
            && (Overrun(t, data) > 0.0 <==> !Inside(data))
            && VoiceCost(t, s, id) <= Times(ReservedSeconds(t), UsdPerSecond(t)) + Overrun(t, data)
  {
    var t, data := fleet(id), s.rows[id].ledger;
    hide Reachable, VoiceCost, Times, UsdPerSecond;
    LiveRecord(fleet, s, id);
    WorstCasesNonNegative(t);
    var reserved, rate := ReservedSeconds(t), UsdPerSecond(t);
    TimesOrder(0.0, reserved, rate);
    TimesNonNegative(0.0, rate);
    assert Times(0.0, rate) == 0.0 by { TimesMonotone(0.0, 0.0, rate); }
    if data.live.Some? && data.live.value.seconds.Some? {
      TimesOrder(data.live.value.seconds.value, reserved, rate);
    }
  }

  /** Without such a receipt the hold covers everything, in either kind of session. */
  lemma {:induction false} InsideMeansCovered(fleet: Fleet, s: Store, id: SessionId)
    requires Reachable(fleet, s) && id in s.rows
    requires fleet(id).limits.route.Live? ==> Inside(s.rows[id].ledger)
    ensures Spend(fleet(id), s, id) <= s.rows[id].reservedCost
  {
    hide Reachable, Spend, Times, VoiceCost, UsdPerSecond, ReservedSeconds;
    ReservationDominatesSpend(fleet, s, id);
    if fleet(id).limits.route.Live? {
      DurationWithinHoldIff(fleet, s, id);
    }
  }

  /** Without an overrun in any session of the organization and reference, they stay within the budget together. */
  lemma {:induction false} TotalSpendWithinBudget(
    fleet: Fleet, actions: seq<Action>, states: seq<Store>, n: nat, organization: string, reference: string,
    budget: real)
    requires Run(fleet, actions, states) && n < |states| && Approved(fleet, organization, reference, budget)
    requires forall id :: id in BudgetHolds(states[n], organization, reference) && fleet(id).limits.route.Live? ==>
               Inside(states[n].rows[id].ledger)
    ensures Sum(BudgetSpend(fleet, states[n], organization, reference)) <= budget
  {
    var s := states[n];
    var overruns := BudgetOverruns(fleet, s, organization, reference);
    TotalSpendNeverExceedsBudget(fleet, actions, states, n, organization, reference, budget);
    RunReaches(fleet, actions, states, n);
    hide Run, Reachable, Times, Sum, BudgetSpend, Approved, Inside;
    forall id | id in overruns ensures overruns[id] <= 0.0 {
      if fleet(id).limits.route.Live? {
        DurationWithinHoldIff(fleet, s, id);
      }
    }
    SumBounded(overruns, 0.0);
    assert Times(|overruns| as real, 0.0) == 0.0 by { TimesZero(|overruns| as real); }
  }

  lemma {:induction false} TimesZero(x: real)
    ensures Times(x, 0.0) == 0.0
  {
  }

  // --- a run that overruns

  const NOW: int := -100

  const SECONDS := 1000.0

  function SampleFleet(): Fleet {
    id => SAMPLE_TERMS
  }

  const FREE := QuotaReads(Some(Quota(-1, -1, 0.0, -1, 1.0)), 0, 0)

  const PROVIDER: string := "live"

  function SampleUsage(): Usage {
    Usage(Some(SECONDS), true, PROVIDER, "expired")
  }

  ghost function Stored(row: Row, events: map<EventId, Event>): Store {
    Store(map[0 := row], events)
  }

  function StartedRow(): Row {
    var row := FreshRow(SAMPLE_TERMS, NOW);
    row.(status := Active, ledger := row.ledger.(live := Some(LiveState(PROVIDER, false, None, None, false))))
  }

  function FinalRow(): Row {
    var row := StartedRow();
    row.(ledger := row.ledger.(live := Some(LiveState(PROVIDER, true, Some(SECONDS), Some("expired"), false))))
  }

  function FinalEvents(): map<EventId, Event> {
    map[DurationEvent(0) := Event("org", Times(SECONDS, UsdPerSecond(SAMPLE_TERMS)), 0, true)]
  }

  lemma {:induction false} SampleHold()
    ensures 0.0 <= Reservation(SAMPLE_TERMS) < Times(SECONDS, UsdPerSecond(SAMPLE_TERMS)) <= 1.0
  {
    assert UsdPerSecond(SAMPLE_TERMS) == 0.05 / 60.0;
    assert SecondaryReservation(SAMPLE_TERMS) == 8.0 / MILLION;
    assert Reservation(SAMPLE_TERMS) == Times(24.0, 0.05 / 60.0) + 8.0 / MILLION;
  }

  lemma {:induction false} SampleReserved()
    ensures Step(SampleFleet(), Store(map[], map[]), DoReserve(0, NOW, FREE)) ==
            Stored(FreshRow(SAMPLE_TERMS, NOW), map[])
  {
    SampleHold();
    var empty := Store(map[], map[]);
    assert BudgetHolds(empty, "org", "ref") == map[] && UsageCosts(empty, "org") == map[];
    assert OpenHolds(empty, "org") == map[] && OpenTokens(empty, "org") == map[] && UsageTokens(empty, "org") == map[];
    assert Sum<SessionId>(map[]) == 0.0 && Sum<EventId>(map[]) == 0.0;
    hide Sum, Reservation, ReservedTokens, ReceiptDeadline, FreshRow, BudgetHolds, UsageCosts, OpenHolds, OpenTokens;
    hide UsageTokens;
  }

  lemma {:induction false} SampleStarted()
    ensures Step(SampleFleet(), Stored(FreshRow(SAMPLE_TERMS, NOW), map[]), DoUpdate(0, NOW, StartLive(PROVIDER))) ==
            Stored(StartedRow(), map[])
  {
    hide Reservation, ReservedTokens;
  }

  lemma {:induction false} SampleFinal()
    ensures Step(SampleFleet(), Stored(StartedRow(), map[]), DoLiveUsage(0, SampleUsage())) ==
            Stored(FinalRow(), FinalEvents())
  {
    hide Reservation, ReservedTokens, Times, UsdPerSecond;
  }

  lemma {:induction false} SampleSpend()
    ensures Spend(SAMPLE_TERMS, Stored(FinalRow(), FinalEvents()), 0) > FinalRow().reservedCost
  {
    SampleHold();
    var s := Stored(FinalRow(), FinalEvents());
    assert ResponseCosts(s, 0) == map[] && EmbeddingCosts(s, 0) == map[];
    assert Sum<EventId>(map[]) == 0.0;
    assert Times(0.0, WorstReasoning(SAMPLE_TERMS)) == 0.0;
    hide Sum, Times, Reservation, ReservedTokens, WorstReasoning, UsdPerSecond;
  }

  /** The condition is needed: reserve, start, and one final receipt of more seconds than were reserved. */
  lemma {:induction false} OverrunReachable() returns (s: Store)
    ensures Reachable(SampleFleet(), s) && 0 in s.rows && !Inside(s.rows[0].ledger)
    ensures Spend(SampleFleet()(0), s, 0) > s.rows[0].reservedCost
  {
    var fleet := SampleFleet();
    var a0, a1, a2 := DoReserve(0, NOW, FREE), DoUpdate(0, NOW, StartLive(PROVIDER)), DoLiveUsage(0, SampleUsage());
    var s1, s2 := Stored(FreshRow(SAMPLE_TERMS, NOW), map[]), Stored(StartedRow(), map[]);
    s := Stored(FinalRow(), FinalEvents());
    SampleReserved();
    SampleStarted();
    SampleFinal();
    SampleSpend();
    hide Step, Spend, FreshRow;
    assert Run(fleet, [a0, a1, a2], [Store(map[], map[]), s1, s2, s]);
  }
}
