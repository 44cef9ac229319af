/** The token hold of a session: it never changes, covers every token the session admits, and stays counted. */
module VoiceTokens {
  import opened Options
  import opened Sums
  import opened VoiceConfig
  import opened VoiceLedger
  import opened VoiceInvariants
  import opened VoiceBudget

  // --- what every run keeps

  /** The most tokens of one response, of one reasoning attempt and of one embedding. */
  function ResponseTokens(t: Terms): nat {
    match t.limits.route
    case Realtime(price, _, _, _, _, output) => price.maximumInputTokens + output
    case Live(_, _, _) => 0
  }

  function ReasoningTokens(t: Terms): nat {
    t.limits.reasoning.maximumInputTokens + t.agentMaxOutputTokens
  }

  function EmbeddingTokens(t: Terms): nat {
    if t.limits.embedding.Some? then t.limits.embedding.value.maximumInputTokens else 0
  }

  /** Every event carries at most the tokens its kind was reserved for; durations and hold charges carry none. */
  ghost predicate TokensBounded(fleet: Fleet, e: EventId, event: Event) {
    match e
    case ResponseEvent(id, _) => event.tokens <= ResponseTokens(fleet(id))
    case EmbeddingEvent(key) => event.tokens <= EmbeddingTokens(fleet(key.session))
    case DurationEvent(_) => event.tokens == 0
    case HoldEvent(_) => event.tokens == 0
    case OtherEvent(_) => true
  }

  ghost predicate TokenInv(fleet: Fleet, s: Store) {
    && (forall id :: id in s.rows ==> s.rows[id].reservedTokens == ReservedTokens(fleet(id)))
    && (forall e :: e in s.events ==> TokensBounded(fleet, e, s.events[e]))
  }

  lemma {:induction false} AdmitKeepsTokens(id: SessionId, t: Terms, admission: Admission, row: Row)
    requires Admit(id, t, admission, row).Changed?
    ensures Admit(id, t, admission, row).row.reservedTokens == row.reservedTokens
  {
    hide Reservation, TranscriptBytes, Truncate;
  }

  lemma {:induction false} UpdateKeepsTokens(fleet: Fleet, s: Store, id: SessionId, now: int, admission: Admission)
    requires TokenInv(fleet, s)
    ensures TokenInv(fleet, Update(s, id, fleet(id), now, admission).store)
  {
    hide Admit, ReservedTokens, TokensBounded;
    if Update(s, id, fleet(id), now, admission).outcome == Accepted {
      AdmitKeepsTokens(id, fleet(id), admission, s.rows[id]);
    }
  }

  lemma {:induction false} ResponseKeepsTokens(fleet: Fleet, s: Store, id: SessionId, receipt: Receipt)
    requires TokenInv(fleet, s)
    ensures TokenInv(fleet, ResponseDone(s, id, fleet(id), receipt).store)
  {
    hide ReservedTokens, PricedResponse, FirstBound;
  }

  lemma {:induction false} EmbeddingKeepsTokens(
    fleet: Fleet, s: Store, id: SessionId, key: Key, result: Option<EmbeddingResult>)
    requires Inv(fleet, s) && TokenInv(fleet, s)
    ensures TokenInv(fleet, EmbeddingDone(s, id, fleet(id), key, result).store)
  {
    hide Inv, ReservedTokens, Times, WellShaped;
    if EmbeddingDone(s, id, fleet(id), key, result).outcome == Accepted {
      RowOf(fleet, s, id);
      EmbeddingDoneRow(s, id, fleet(id), key, result);
      hide RowInv;
    }
  }

  lemma {:induction false} UsageKeepsTokens(fleet: Fleet, s: Store, id: SessionId, usage: Usage)
    requires TokenInv(fleet, s)
    ensures TokenInv(fleet, LiveUsage(s, id, fleet(id), usage).store)
  {
    hide ReservedTokens, Times;
  }

  lemma {:induction false} SweepKeepsTokens(fleet: Fleet, s: Store, organization: string, now: int)
    requires TokenInv(fleet, s)
    ensures TokenInv(fleet, Sweep(s, organization, now))
  {
    hide ReservedTokens, Sweep, Sweepable;
    var s' := Sweep(s, organization, now);
    SweepKeys(s, organization, now);
    forall id | id in s'.rows ensures s'.rows[id].reservedTokens == ReservedTokens(fleet(id)) {
      SweepRowOf(s, organization, now, id);
    }
    forall e | e in s'.events ensures TokensBounded(fleet, e, s'.events[e]) {
      SweepLookup(s, organization, now, e);
    }
  }

  lemma {:induction false} StepKeepsTokens(fleet: Fleet, s: Store, a: Action)
    requires Inv(fleet, s) && TokenInv(fleet, s)
    ensures TokenInv(fleet, Step(fleet, s, a))
  {
    hide Inv, TokensBounded, ReservedTokens, Update, ResponseDone, EmbeddingDone, LiveUsage, Sweep, ClosingCost;
    hide ReserveRefusal, TotalsOf, Reservation;
    match a {
      case DoUpdate(id, now, admission) => UpdateKeepsTokens(fleet, s, id, now, admission);
      case DoEmbeddingAttempt(id, now, key, query, _, turn) =>
        UpdateKeepsTokens(fleet, s, id, now, Embed(key, query, turn));
      case DoResponseDone(id, receipt) => ResponseKeepsTokens(fleet, s, id, receipt);
      case DoEmbeddingDone(id, key, result) => EmbeddingKeepsTokens(fleet, s, id, key, result);
      case DoLiveUsage(id, usage) => UsageKeepsTokens(fleet, s, id, usage);
      case DoSweep(organization, now) => SweepKeepsTokens(fleet, s, organization, now);
      case DoOtherUsage(number, organization, cost, tokens) =>
        OtherBounded(fleet, number, Event(organization, cost, tokens, true));
      case _ =>
    }
  }

  lemma {:induction false} OtherBounded(fleet: Fleet, number: nat, event: Event)
    ensures TokensBounded(fleet, OtherEvent(number), event)
  {
  }

  /** In every state of every run the token hold is the one reserved and every event is within its kind's ceiling. */
  lemma {:induction false} RunKeepsTokens(fleet: Fleet, actions: seq<Action>, states: seq<Store>, n: nat)
    requires Run(fleet, actions, states) && n < |states|
    ensures TokenInv(fleet, states[n])
  {
    hide Run, Step, Inv;
    RunStart(fleet, actions, states);
    if n > 0 {
      RunStep(fleet, actions, states, n - 1);
      RunKeepsTokens(fleet, actions, states, n - 1);
      RunKeeps(fleet, actions, states, n - 1);
      hide TokenInv;
      StepKeepsTokens(fleet, states[n - 1], actions[n - 1]);
    }
  }

  lemma {:induction false} ReachableTokens(fleet: Fleet, s: Store)
    requires Reachable(fleet, s)
    ensures TokenInv(fleet, s)
  {
    hide Step, TokenInv;
    var actions: seq<Action>, states: seq<Store> :| Run(fleet, actions, states) && states[|actions|] == s;
    RunKeepsTokens(fleet, actions, states, |actions|);
  }

  // --- the hold covers what is admitted

  function OwnTokens(s: Store, id: SessionId): map<EventId, real> {
    map e | e in s.events && Owner(e) == Some(id) :: s.events[e].tokens as real
  }

  function OfResponses(s: Store, id: SessionId): map<EventId, real> {
    map e | e in s.events && e.ResponseEvent? && e.session == id :: s.events[e].tokens as real
  }

  function OfEmbeddings(s: Store, id: SessionId): map<EventId, real> {
    map e | e in s.events && e.EmbeddingEvent? && e.key.session == id :: s.events[e].tokens as real
  }

  function OfHolds(s: Store, id: SessionId): map<EventId, real> {
    map e | e in s.events && (e == DurationEvent(id) || e == HoldEvent(id)) :: s.events[e].tokens as real
  }

  lemma {:induction false} TokensSplit(s: Store, id: SessionId)
    ensures Sum(OwnTokens(s, id)) == Sum(OfResponses(s, id)) + Sum(OfEmbeddings(s, id)) + Sum(OfHolds(s, id))
  {
    hide Sum;
    var rest := map e | e in OwnTokens(s, id) && !e.ResponseEvent? :: OwnTokens(s, id)[e];
    assert Splits(OwnTokens(s, id), OfResponses(s, id), rest);
    assert Splits(rest, OfEmbeddings(s, id), OfHolds(s, id));
    SumSplit(OwnTokens(s, id), OfResponses(s, id), rest);
    SumSplit(rest, OfEmbeddings(s, id), OfHolds(s, id));
  }

  /** At most `n` values, each at most `worst`. */
  lemma {:induction false} CountTimes<K(!new)>(m: map<K, real>, n: nat, worst: nat)
    requires |m| <= n && forall k :: k in m ==> m[k] <= worst as real
    ensures Sum(m) <= Times(n as real, worst as real)
  {
    hide Sum;
    SumBounded(m, worst as real);
    TimesMonotone(|m| as real, n as real, worst as real);
  }

  /** The number of responses a session may admit. */
  function ResponseCap(t: Terms): nat {
    if t.limits.route.Realtime? then t.limits.route.maximumResponses else 0
  }

  lemma {:induction false} ResponseTokensBounded(fleet: Fleet, s: Store, id: SessionId)
    requires Inv(fleet, s) && TokenInv(fleet, s) && id in s.rows
    ensures Sum(OfResponses(s, id)) <= Times(ResponseCap(fleet(id)) as real, ResponseTokens(fleet(id)) as real)
  {
    var t, rs, m := fleet(id), s.rows[id].ledger.responses, OfResponses(s, id);
    RowOf(fleet, s, id);
    assert |rs| <= ResponseCap(t);
    forall e | e in m ensures SettledBy(rs, e.responseId) && m[e] <= ResponseTokens(t) as real {
      assert e == ResponseEvent(id, e.responseId) && TokensBounded(fleet, e, s.events[e]);
    }
    hide Inv, RowInv, TokenInv, Sum, SettledBy, ResponseTokens;
    ResponseCount(m.Keys, rs, id);
    CountTimes(m, ResponseCap(t), ResponseTokens(t));
  }

  lemma {:induction false} EmbeddingTokensBounded(fleet: Fleet, s: Store, id: SessionId)
    requires Inv(fleet, s) && TokenInv(fleet, s) && id in s.rows
    ensures Sum(OfEmbeddings(s, id)) <= Times(fleet(id).limits.maximumTurns as real, EmbeddingTokens(fleet(id)) as real)
  {
    var t, data, m := fleet(id), s.rows[id].ledger, OfEmbeddings(s, id);
    RowOf(fleet, s, id);
    var keys := set e | e in m :: e.key;
    assert keys <= data.embeddings.Keys && |data.embeddings| <= t.limits.maximumTurns;
    forall e | e in m ensures m[e] <= EmbeddingTokens(t) as real {
      assert TokensBounded(fleet, e, s.events[e]);
    }
    hide Inv, RowInv, TokenInv, Sum, EmbeddingTokens;
    CardinalityMonotone(keys, data.embeddings.Keys);
    KeyCardinality(m.Keys, keys);
    CountTimes(m, t.limits.maximumTurns, EmbeddingTokens(t));
  }

  lemma {:induction false} HoldTokensZero(fleet: Fleet, s: Store, id: SessionId)
    requires TokenInv(fleet, s)
    ensures Sum(OfHolds(s, id)) <= 0.0
  {
    var m := OfHolds(s, id);
    forall e | e in m ensures m[e] <= 0.0 {
      assert TokensBounded(fleet, e, s.events[e]);
    }
    hide TokenInv, Sum, OfHolds;
    SumBounded(m, 0.0);
    assert Times(|m| as real, 0.0) == 0.0;
  }

  /** Submitted audio at the approved number of tokens per second. */
  function AudioTokens(t: Terms, bytes: nat): real {
    match t.limits.route
    case Realtime(_, _, _, perSecond, _, _) => Times(bytes as real / AUDIO_BYTES_PER_SECOND as real, perSecond)
    case Live(_, _, _) => 0.0
  }

  function AudioHold(t: Terms): int {
    match t.limits.route
    case Realtime(_, _, _, perSecond, _, _) => Ceiling(t.limits.maximumAudioSeconds as real * perSecond)
    case Live(_, _, _) => 0
  }

  lemma {:induction false} AudioWithinHold(t: Terms, bytes: nat)
    requires bytes <= AUDIO_BYTES_PER_SECOND * t.limits.maximumAudioSeconds
    ensures AudioTokens(t, bytes) <= AudioHold(t) as real
  {
    if t.limits.route.Realtime? {
      AudioSeconds(bytes, t.limits.maximumAudioSeconds);
      var seconds, rate := t.limits.maximumAudioSeconds as real, t.limits.route.audioTokensPerSecond;
      TimesMonotone(bytes as real / AUDIO_BYTES_PER_SECOND as real, seconds, rate);
      CeilingAbove(seconds * rate);
    }
  }

  lemma {:induction false} CeilingAbove(x: real)
    ensures x <= Ceiling(x) as real
  {
  }

  lemma {:induction false} ProductReal(a: nat, b: nat)
    ensures (a * b) as real == Times(a as real, b as real)
  {
  }

  /** The token hold is the sum of its parts. */
  lemma {:induction false} HoldParts(t: Terms)
    ensures ReservedTokens(t) as real ==
            Times(ResponseCap(t) as real, ResponseTokens(t) as real)
            + Times((t.limits.maximumTurns * 4) as real, ReasoningTokens(t) as real)
            + Times(t.limits.maximumTurns as real, EmbeddingTokens(t) as real) + AudioHold(t) as real
  {
    var l := t.limits;
    ProductReal(ResponseCap(t), ResponseTokens(t));
    ProductReal(l.maximumTurns * 4, ReasoningTokens(t));
    ProductReal(l.maximumTurns, EmbeddingTokens(t));
    hide Times, Ceiling;
    assert ReservedTokens(t) == ResponseCap(t) * ResponseTokens(t) + l.maximumTurns * 4 * ReasoningTokens(t)
                                + l.maximumTurns * EmbeddingTokens(t) + AudioHold(t);
  }

  /** Everything the session admitted, in tokens, each unresolved reasoning attempt at its ceiling. */
  ghost function TokenSpend(t: Terms, s: Store, id: SessionId): real
    requires id in s.rows
  {
    Sum(OwnTokens(s, id)) + Times(|s.rows[id].ledger.reasoning| as real, ReasoningTokens(t) as real)
    + AudioTokens(t, s.rows[id].ledger.audioBytes)
  }

  /**
   * In every reachable state the token hold of a session is the one it reserved, and covers the tokens of all its
   * events, its reasoning attempts at their ceiling and its audio at the approved rate.
   */
  lemma {:induction false} TokenHoldDominates(fleet: Fleet, s: Store, id: SessionId)
    requires Reachable(fleet, s) && id in s.rows
    ensures s.rows[id].reservedTokens == ReservedTokens(fleet(id))
    ensures TokenSpend(fleet(id), s, id) <= s.rows[id].reservedTokens as real
  {
    hide Reachable;
    var t, data := fleet(id), s.rows[id].ledger;
    ReachableInv(fleet, s);
    ReachableTokens(fleet, s);
    TokenCaps(fleet, s, id);
    hide Inv, Sum, Times, OwnTokens, ReservedTokens, AudioTokens, AudioHold;
    TokensSplit(s, id);
    ResponseTokensBounded(fleet, s, id);
    EmbeddingTokensBounded(fleet, s, id);
    HoldTokensZero(fleet, s, id);
    AudioWithinHold(t, data.audioBytes);
    TimesMonotone(|data.reasoning| as real, (t.limits.maximumTurns * 4) as real, ReasoningTokens(t) as real);
    HoldParts(t);
  }

  lemma {:induction false} TokenCaps(fleet: Fleet, s: Store, id: SessionId)
    requires Inv(fleet, s) && id in s.rows
    ensures |s.rows[id].ledger.reasoning| <= fleet(id).limits.maximumTurns * 4
    ensures s.rows[id].ledger.audioBytes <= AUDIO_BYTES_PER_SECOND * fleet(id).limits.maximumAudioSeconds
  {
    hide Inv, ResponsesAccounted, EmbeddingsAccounted, DurationAccounted, HoldAccounted, ReleaseJustified, Identified;
    RowOf(fleet, s, id);
  }

  // --- never release unresolved tokens

  /** Some tokens of the session are not established by a provider receipt. */
  predicate UnknownTokens(t: Terms, data: Ledger) {
    if t.limits.route.Realtime? then Ambiguous(data) else Secondary(data)
  }

  /** What a later `reserve` counts for a session: the tokens of its events, and its hold until released. */
  ghost function TokensCounted(s: Store, id: SessionId): real
    requires id in s.rows
  {
    Sum(OwnTokens(s, id)) + (if Unreleased(s.rows[id]) then s.rows[id].reservedTokens as real else 0.0)
  }

  /**
   * In every reachable state, while any tokens of a session are unresolved its whole token hold is counted; and
   * whatever has been released, the tokens of its events always are.
   */
  lemma {:induction false} UnknownTokensStayCounted(fleet: Fleet, s: Store, id: SessionId)
    requires Reachable(fleet, s) && id in s.rows
    ensures UnknownTokens(fleet(id), s.rows[id].ledger) ==> TokensCounted(s, id) >= s.rows[id].reservedTokens as real
    ensures TokensCounted(s, id) >= Sum(OwnTokens(s, id)) >= 0.0
  {
    hide Reachable, Inv, Sum, Ambiguous, Secondary;
    ReachableInv(fleet, s);
    TokenHoldDominates(fleet, s, id);
    SumNonNegative(OwnTokens(s, id));
    RowOf(fleet, s, id);
    SpendNonNegative(fleet(id), s, id);
    hide ResponsesAccounted, EmbeddingsAccounted, DurationAccounted, HoldAccounted, Capped, Identified, TokenSpend;
    hide ReservedTokens, OwnTokens;
  }

  lemma {:induction false} SpendNonNegative(t: Terms, s: Store, id: SessionId)
    requires id in s.rows
    ensures TokenSpend(t, s, id) >= 0.0
  {
    hide Sum;
    SumNonNegative(OwnTokens(s, id));
    TimesNonNegative(|s.rows[id].ledger.reasoning| as real, ReasoningTokens(t) as real);
    if t.limits.route.Realtime? {
      TimesNonNegative(s.rows[id].ledger.audioBytes as real / AUDIO_BYTES_PER_SECOND as real,
                       t.limits.route.audioTokensPerSecond);
    }
    hide Times, OwnTokens;
  }
}
