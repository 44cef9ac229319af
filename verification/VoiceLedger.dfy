/**
 * The durable voice reservation protocol as transitions of one database value: one function per
 * transaction of backend/src/app/agent_voice/accounting.py, live_accounting.py and
 * reservations_sweep.py. Identifiers derived with `uuid5` are injective constructors, the digest of
 * the limits is the receipt itself, and usage is one accounting window.
 */
module VoiceLedger {
  import opened Options
  import opened Sums
  import opened Utf8
  import opened VoiceConfig

  type SessionId = nat

  /** The request key `uuid5(session, "tool:" + call)`. */
  datatype Key = Key(session: SessionId, call: string)

  datatype EventId =
    | ResponseEvent(session: SessionId, responseId: string)
    | EmbeddingEvent(key: Key)
    | DurationEvent(session: SessionId)
    | HoldEvent(session: SessionId)
    | OtherEvent(number: nat)

  function Owner(e: EventId): Option<SessionId> {
    match e
    case ResponseEvent(id, _) => Some(id)
    case EmbeddingEvent(key) => Some(key.session)
    case DurationEvent(id) => Some(id)
    case HoldEvent(id) => Some(id)
    case OtherEvent(_) => None
  }

  /** A usage event; `known` is false for a placeholder cost. */
  datatype Event = Event(organization: string, cost: real, tokens: nat, known: bool)

  datatype Status = Pending | Active | Closed | Uncertain

  datatype Response = Response(admission: nat, responseId: Option<string>, done: bool, estimate: Option<real>)

  datatype Body = Body(message: string, context: string)

  datatype Tool = Tool(key: Key, body: Body, acknowledged: bool)

  datatype Attempt = Attempt(model: string, received: bool)

  datatype EmbeddingState = TransportMayStart | Received | Unresolved

  datatype LiveState = LiveState(
    providerId: string, finalized: bool, seconds: Option<real>, reason: Option<string>, within: bool)

  datatype Fragment = Fragment(eventId: string, delta: string, startMs: nat, endMs: nat)

  datatype Ledger = Ledger(
    digest: RawTerms, expiresAt: int, audioBytes: nat, responses: seq<Response>, tools: map<string, Tool>,
    reasoning: seq<Attempt>, embeddings: map<Key, EmbeddingState>, live: Option<LiveState>,
    transcripts: seq<(string, Fragment)>)

  datatype Row = Row(
    organization: string, budgetReference: string, status: Status, reservedCost: real, reservedTokens: int,
    accountedCost: Option<real>, responseCount: nat, ledger: Ledger)

  datatype Store = Store(rows: map<SessionId, Row>, events: map<EventId, Event>)

  datatype Refusal =
    | BudgetExhausted | QuotaUninitialized | DailyQuota | FeatureQuota | MonthlyCostQuota | MonthlyTokenQuota
    | DuplicateId | SessionClosed | SessionExpired | SessionMissing | UnsupportedRoute
    | AudioExhausted | ResponseCap | UnadmittedResponse | ToolConflict | TurnCap | UnknownTool
    | ReasoningCap | ReasoningRoute | ReasoningContext | UnknownAttempt
    | EmbeddingReceipt | EmbeddingInput | EmbeddingQuota | EmbeddingReservation | EmbeddingIdentity
    | EmbeddingAdmitted | EmbeddingTurnCap | EmbeddingTurnRequired | UnadmittedEmbedding
    | LiveIdentity | TranscriptCap | InvalidUsage | UsageBeforeStart | UsageRegressed | FinalMismatch
    | FinalReason | FinalConflict | UsageAfterFinal | OutsideReservation

  /** `Replayed` marks an idempotent repetition that is answered without any new effect. */
  datatype Outcome = Accepted | Replayed | Refused(reason: Refusal)

  datatype Reply = Reply(store: Store, outcome: Outcome)

  // --- reserve (accounting.py:65-168)

  datatype Quota = Quota(dailyLimit: int, agentChatLimit: int, monthlyCostLimit: real,
                         monthlyTokenLimit: int, hardBlock: real)

  /** What `reserve` reads besides the two tables: the quota row and two request counts. */
  datatype QuotaReads = QuotaReads(quota: Option<Quota>, daily: nat, feature: nat)

  /** Holds of one organization under one budget reference, whatever their status. */
  function BudgetHolds(s: Store, organization: string, reference: string): map<SessionId, real> {
    map id | id in s.rows && s.rows[id].organization == organization && s.rows[id].budgetReference == reference
      :: s.rows[id].reservedCost
  }

  predicate Unreleased(row: Row) {
    row.status != Closed || row.accountedCost.None?
  }

  function OpenHolds(s: Store, organization: string): map<SessionId, real> {
    map id | id in s.rows && s.rows[id].organization == organization && Unreleased(s.rows[id])
      :: s.rows[id].reservedCost
  }

  function OpenTokens(s: Store, organization: string): map<SessionId, real> {
    map id | id in s.rows && s.rows[id].organization == organization && Unreleased(s.rows[id])
      :: s.rows[id].reservedTokens as real
  }

  function UsageCosts(s: Store, organization: string): map<EventId, real> {
    map e | e in s.events && s.events[e].organization == organization :: s.events[e].cost
  }

  function UsageTokens(s: Store, organization: string): map<EventId, real> {
    map e | e in s.events && s.events[e].organization == organization :: s.events[e].tokens as real
  }

  /** The five totals `reserve` reads from the two tables. */
  datatype Totals = Totals(competing: real, used: real, tokens: real, openCost: real, openTokens: real)

  ghost function TotalsOf(s: Store, t: Terms): Totals {
    var org := t.limits.organization;
    Totals(Sum(BudgetHolds(s, org, t.limits.budgetReference)), Sum(UsageCosts(s, org)), Sum(UsageTokens(s, org)),
           Sum(OpenHolds(s, org)), Sum(OpenTokens(s, org)))
  }

  function ReserveRefusal(t: Terms, totals: Totals, quotas: QuotaReads): Option<Refusal> {
    var maximum := Reservation(t);
    if maximum + totals.competing + totals.used > t.limits.remainingBudget then Some(BudgetExhausted)
    else if quotas.quota.None? then Some(QuotaUninitialized)
    else
      var q := quotas.quota.value;
      if q.dailyLimit >= 0 && quotas.daily as real >= q.dailyLimit as real * q.hardBlock then Some(DailyQuota)
      else if q.agentChatLimit >= 0 && quotas.feature as real >= q.agentChatLimit as real * q.hardBlock then
        Some(FeatureQuota)
      else if q.monthlyCostLimit > 0.0
              && totals.used + totals.openCost + maximum > q.monthlyCostLimit * q.hardBlock then
        Some(MonthlyCostQuota)
      else if q.monthlyTokenLimit >= 0
              && totals.tokens + totals.openTokens + ReservedTokens(t) as real
                 > q.monthlyTokenLimit as real * q.hardBlock then
        Some(MonthlyTokenQuota)
      else None
  }

  function FreshRow(t: Terms, now: int): Row {
    Row(t.limits.organization, t.limits.budgetReference, Pending, Reservation(t), ReservedTokens(t), None, 0,
        Ledger(t, MinInt(now + t.limits.maximumSeconds, ReceiptDeadline(t)), 0, [], map[], [], map[], None, []))
  }

  ghost function Reserve(s: Store, id: SessionId, t: Terms, now: int, quotas: QuotaReads): Reply {
    match ReserveRefusal(t, TotalsOf(s, t), quotas)
    case Some(reason) => Reply(s, Refused(reason))
    case None =>
      if id in s.rows then Reply(s, Refused(DuplicateId))
      else Reply(s.(rows := s.rows[id := FreshRow(t, now)]), Accepted)
  }

  // --- update and the changes it guards (accounting.py:170-220, 299-350, 374-397; live_accounting.py:58-87)

  datatype Request = Request(model: string, maxTokens: nat, bytes: nat)

  datatype Admission =
    | Activate
    | Audio(length: nat)
    | Respond(admission: nat)
    | Bind(responseId: string)
    | RememberTool(call: string, body: Body)
    | AcknowledgeTool(call: string)
    | Reason(request: Request)
    | ReasonDone(index: nat)
    | Embed(key: Key, query: string, turn: bool)
    | StartLive(providerId: string)
    | Transcribe(role: string, fragment: Fragment)

  datatype Change = Changed(row: Row) | Same | Reject(reason: Refusal)

  function FirstUnbound(rs: seq<Response>): (i: nat)
    ensures i <= |rs|
    ensures i < |rs| ==> rs[i].responseId.None?
    ensures forall j :: 0 <= j < i ==> rs[j].responseId.Some?
  {
    if rs == [] || rs[0].responseId.None? then 0 else FirstUnbound(rs[1..]) + 1
  }

  function FirstBound(rs: seq<Response>, responseId: string): (i: nat)
    ensures i <= |rs|
    ensures i < |rs| ==> rs[i].responseId == Some(responseId)
    ensures forall j :: 0 <= j < i ==> rs[j].responseId != Some(responseId)
  {
    if rs == [] || rs[0].responseId == Some(responseId) then 0 else FirstBound(rs[1..], responseId) + 1
  }

  function TranscriptBytes(fragments: seq<(string, Fragment)>): nat {
    if fragments == [] then 0
    else TranscriptBytes(fragments[..|fragments| - 1]) + ByteLength(fragments[|fragments| - 1].1.delta)
  }

  function Truncate(s: string): string {
    if |s| > 2000 then s[..2000] else s
  }

  function Admit(id: SessionId, t: Terms, admission: Admission, row: Row): Change {
    var data := row.ledger;
    var l := t.limits;
    match admission
    case Activate => Changed(row.(status := Active))
    case Audio(length) =>
      var total := data.audioBytes + length;
      if total > AUDIO_BYTES_PER_SECOND * l.maximumAudioSeconds then Reject(AudioExhausted)
      else Changed(row.(ledger := data.(audioBytes := total)))
    case Respond(key) =>
      if !l.route.Realtime? then Reject(UnsupportedRoute)
      else if row.responseCount >= l.route.maximumResponses then Reject(ResponseCap)
      else Changed(row.(responseCount := row.responseCount + 1,
                        ledger := data.(responses := data.responses + [Response(key, None, false, None)])))
    case Bind(responseId) =>
      var i := FirstUnbound(data.responses);
      if i == |data.responses| then Reject(UnadmittedResponse)
      else Changed(row.(ledger := data.(
        responses := data.responses[i := data.responses[i].(responseId := Some(responseId))])))
    case RememberTool(call, body) =>
      if call in data.tools then
        if data.tools[call].body != body then Reject(ToolConflict) else Same
      else if |data.tools| >= l.maximumTurns then Reject(TurnCap)
      else Changed(row.(ledger := data.(tools := data.tools[call := Tool(Key(id, call), body, false)])))
    case AcknowledgeTool(call) =>
      if call !in data.tools then Reject(UnknownTool)
      else Changed(row.(ledger := data.(tools := data.tools[call := data.tools[call].(acknowledged := true)])))
    case Reason(request) =>
      if |data.reasoning| >= 4 * l.maximumTurns then Reject(ReasoningCap)
      else if request.model != l.reasoning.model || request.maxTokens > t.agentMaxOutputTokens then
        Reject(ReasoningRoute)
      else if request.bytes > l.reasoning.maximumInputTokens then Reject(ReasoningContext)
      else Changed(row.(ledger := data.(reasoning := data.reasoning + [Attempt(request.model, false)])))
    case ReasonDone(index) =>
      if index >= |data.reasoning| then Reject(UnknownAttempt)
      else Changed(row.(ledger := data.(
        reasoning := data.reasoning[index := data.reasoning[index].(received := true)])))
    case Embed(key, query, turn) =>
      if data.digest != t || row.reservedCost < Reservation(t) then Reject(EmbeddingReservation)
      else if !exists call :: call in data.tools && data.tools[call].key == key
                              && Truncate(data.tools[call].body.message) == query then
        Reject(EmbeddingIdentity)
      else if key in data.embeddings then Reject(EmbeddingAdmitted)
      else if |data.embeddings| >= l.maximumTurns then Reject(EmbeddingTurnCap)
      else if !turn then Reject(EmbeddingTurnRequired)
      else Changed(row.(ledger := data.(embeddings := data.embeddings[key := TransportMayStart])))
    case StartLive(providerId) =>
      if !l.route.Live? then Reject(UnsupportedRoute)
      else if providerId == "" || data.live.Some? then Reject(LiveIdentity)
      else Changed(row.(status := Active,
                        ledger := data.(live := Some(LiveState(providerId, false, None, None, false)),
                                        transcripts := [])))
    case Transcribe(role, fragment) =>
      if data.live.None? then Reject(UnsupportedRoute)
      else if exists f :: f in data.transcripts && f.1.eventId == fragment.eventId then Same
      else if |data.transcripts| >= 512
              || TranscriptBytes(data.transcripts) + ByteLength(fragment.delta) > 64000 then Reject(TranscriptCap)
      else Changed(row.(ledger := data.(transcripts := data.transcripts + [(role, fragment)])))
  }

  predicate Open(row: Row) {
    row.status == Pending || row.status == Active
  }

  function Update(s: Store, id: SessionId, t: Terms, now: int, admission: Admission): Reply {
    if id !in s.rows || !Open(s.rows[id]) then Reply(s, Refused(SessionClosed))
    else if s.rows[id].ledger.expiresAt <= now then Reply(s, Refused(SessionExpired))
    else
      match Admit(id, t, admission, s.rows[id])
      case Reject(reason) => Reply(s, Refused(reason))
      case Same => Reply(s, Replayed)
      case Changed(row) => Reply(s.(rows := s.rows[id := row]), Accepted)
  }

  /** The checks before `update` in `embedding_attempt`, including the separate quota transaction. */
  function EmbeddingAttempt(
    s: Store, id: SessionId, t: Terms, now: int, key: Key, query: string, quotaAllowed: bool, turn: bool): Reply
  {
    var price := t.limits.embedding;
    if price.None? || price.value.model != t.embeddingsModel || price.value.validUntil <= now then
      Reply(s, Refused(EmbeddingReceipt))
    else if query == "" || ByteLength(query) > price.value.maximumInputTokens then Reply(s, Refused(EmbeddingInput))
    else if !quotaAllowed then Reply(s, Refused(EmbeddingQuota))
    else Update(s, id, t, now, Embed(key, query, turn))
  }

  // --- settlement from provider receipts (accounting.py:222-297, 399-451; retrieval.py:77-110)

  datatype Receipt = Receipt(id: string, usage: Option<(int, int)>)

  /** The verified price of a receipt, or nothing when the usage is absent or outside the ceilings. */
  function ReceiptCost(r: Route, usage: Option<(int, int)>): Option<real>
    requires r.Realtime?
  {
    match usage
    case None => None
    case Some((input, output)) =>
      if 0 <= input <= r.price.maximumInputTokens && 0 <= output <= r.maximumOutputTokens then
        Some(PricedResponse(r, input, output) / MILLION)
      else None
  }

  function CostOrZero(cost: Option<real>): real {
    if cost.Some? then cost.value else 0.0
  }

  function InsertIfAbsent(events: map<EventId, Event>, e: EventId, event: Event): map<EventId, Event> {
    if e in events then events else events[e := event]
  }

  function ResponseDone(s: Store, id: SessionId, t: Terms, receipt: Receipt): Reply {
    if !t.limits.route.Realtime? then Reply(s, Refused(UnsupportedRoute))
    else if id !in s.rows then Reply(s, Refused(SessionMissing))
    else
      var row := s.rows[id];
      var rs := row.ledger.responses;
      var i := FirstBound(rs, receipt.id);
      if i == |rs| then Reply(s, Refused(UnadmittedResponse))
      else if rs[i].done then Reply(s, Replayed)
      else
        var cost := ReceiptCost(t.limits.route, receipt.usage);
        var tokens := if cost.Some? then receipt.usage.value.0 + receipt.usage.value.1 else 0;
        var settled := row.(ledger := row.ledger.(responses := rs[i := rs[i].(done := true, estimate := cost)]));
        Reply(Store(s.rows[id := settled],
                    InsertIfAbsent(s.events, ResponseEvent(id, receipt.id),
                                   Event(row.organization, CostOrZero(cost), tokens, cost.Some?))),
              Accepted)
  }

  /** A result; `asked` is the configured provider's dimension and a component that is no finite number is missing. */
  datatype EmbeddingResult = EmbeddingResult(
    model: string, fallbackUsed: bool, inputTokens: int, vectors: seq<seq<Option<real>>>, dimensions: nat, asked: nat)

  /** One vector of the asked dimension, every component a finite number. */
  predicate WellShaped(r: EmbeddingResult) {
    && |r.vectors| == 1 && r.dimensions == r.asked && |r.vectors[0]| == r.asked
    && forall i :: 0 <= i < |r.vectors[0]| ==> r.vectors[0][i].Some?
  }

  /** The validity test of `embed_with_metadata`. */
  predicate WithinReceipt(price: EmbeddingPrice, result: Option<EmbeddingResult>) {
    && result.Some? && result.value.model == price.model && !result.value.fallbackUsed
    && 0 < result.value.inputTokens <= price.maximumInputTokens && WellShaped(result.value)
  }

  function EmbeddingDone(s: Store, id: SessionId, t: Terms, key: Key, result: Option<EmbeddingResult>): Reply {
    if t.limits.embedding.None? then Reply(s, Refused(EmbeddingReceipt))
    else if id !in s.rows then Reply(s, Refused(SessionMissing))
    else
      var price := t.limits.embedding.value;
      var row := s.rows[id];
      var attempts := row.ledger.embeddings;
      if key !in attempts then Reply(s, Refused(UnadmittedEmbedding))
      else if attempts[key] != TransportMayStart then Reply(s, Replayed)
      else
        var valid := WithinReceipt(price, result);
        var tokens := if valid then result.value.inputTokens else 0;
        var cost := Times(tokens as real, price.inputUsdPerMillion) / MILLION;
        var state := if valid then Received else Unresolved;
        Reply(Store(s.rows[id := row.(ledger := row.ledger.(embeddings := attempts[key := state]))],
                    InsertIfAbsent(s.events, EmbeddingEvent(key), Event(row.organization, cost, tokens, valid))),
              Accepted)
  }

  const FINAL_REASONS := {"close_requested", "expired", "content", "remote_hangup", "connection_lost"}

  datatype Usage = Usage(seconds: Option<real>, final: bool, providerId: string, reason: string)

  function LiveUsage(s: Store, id: SessionId, t: Terms, usage: Usage): Reply {
    if !t.limits.route.Live? then Reply(s, Refused(UnsupportedRoute))
    else if usage.seconds.None? || usage.seconds.value < 0.0 then Reply(s, Refused(InvalidUsage))
    else if id !in s.rows then Reply(s, Refused(SessionMissing))
    else
      var row := s.rows[id];
      if row.ledger.live.None? then Reply(s, Refused(UsageBeforeStart))
      else
        var live := row.ledger.live.value;
        var seconds := usage.seconds.value;
        if live.seconds.Some? && seconds < live.seconds.value then Reply(s, Refused(UsageRegressed))
        else if usage.final && usage.providerId != live.providerId then Reply(s, Refused(FinalMismatch))
        else if usage.final && usage.reason !in FINAL_REASONS then Reply(s, Refused(FinalReason))
        else if live.finalized then
          if usage.final && Some(seconds) == live.seconds then
            if Some(usage.reason) != live.reason then Reply(s, Refused(FinalConflict)) else Reply(s, Replayed)
          else Reply(s, Refused(UsageAfterFinal))
        else
          var within := seconds <= (t.limits.maximumSeconds + CLOSE_SECONDS + CLEANUP_SECONDS) as real;
          var live' := LiveState(live.providerId, usage.final, Some(seconds),
                                 if usage.final then Some(usage.reason) else None, within);
          var duration := Event(row.organization, Times(seconds, UsdPerSecond(t)), 0, true);
          var charged := s.events[DurationEvent(id) := duration];
          Reply(Store(s.rows[id := row.(ledger := row.ledger.(live := Some(live')))],
                      if usage.final then charged - {HoldEvent(id)} else charged),
                if within then Accepted else Refused(OutsideReservation))
  }

  // --- close (accounting.py:453-476, live_accounting.py:170-196)

  predicate Ambiguous(data: Ledger) {
    || (exists r :: r in data.responses && (!r.done || r.estimate.None?))
    || (exists call :: call in data.tools && !data.tools[call].acknowledged)
    || data.reasoning != [] || data.audioBytes != 0 || data.embeddings != map[]
  }

  predicate Secondary(data: Ledger) {
    data.tools != map[] || data.reasoning != [] || data.embeddings != map[]
  }

  predicate Confirmed(data: Ledger) {
    data.live.Some? && data.live.value.finalized && data.live.value.within
  }

  function Settled(row: Row, cost: Option<real>): Row {
    row.(status := if cost.Some? then Closed else Uncertain, accountedCost := cost)
  }

  /** What closing accounts for a row, or nothing when any part of its spend is unresolved. */
  function ClosingCost(t: Terms, data: Ledger): Option<real> {
    match t.limits.route
    case Realtime(_, _, _, _, _, _) => if Ambiguous(data) then None else Some(0.0)
    case Live(_, _, _) =>
      if Confirmed(data) && !Secondary(data) && data.live.value.seconds.Some? then
        Some(Times(data.live.value.seconds.value, UsdPerSecond(t)))
      else None
  }

  function Close(s: Store, id: SessionId, t: Terms): Reply {
    if id !in s.rows then Reply(s, Replayed)
    else Reply(s.(rows := s.rows[id := Settled(s.rows[id], ClosingCost(t, s.rows[id].ledger))]), Accepted)
  }

  // --- the expired-hold sweep (reservations_sweep.py:44-148)

  predicate Sweepable(row: Row, organization: string, now: int) {
    && row.organization == organization && row.accountedCost.None?
    && row.ledger.live.Some? && !row.ledger.live.value.finalized && !Secondary(row.ledger)
    && now >= row.ledger.expiresAt + CLOSE_SECONDS + CLEANUP_SECONDS
  }

  function HoldCharge(row: Row, existing: Option<Event>): Event {
    match existing
    case None => Event(row.organization, row.reservedCost, 0, true)
    case Some(event) => if event.cost < row.reservedCost then event.(cost := row.reservedCost) else event
  }

  function Lookup(events: map<EventId, Event>, e: EventId): Option<Event> {
    if e in events then Some(events[e]) else None
  }

  function ChargeHold(s: Store, id: SessionId): Store
    requires id in s.rows
  {
    var row := s.rows[id];
    Store(s.rows[id := Settled(row, Some(row.reservedCost))],
          s.events[HoldEvent(id) := HoldCharge(row, Lookup(s.events, HoldEvent(id)))])
  }

  /** Every sweepable row of the organization is charged its whole hold; nothing else changes. */
  function Sweep(s: Store, organization: string, now: int): Store {
    var due := set id | id in s.rows && Sweepable(s.rows[id], organization, now);
    Store(map id | id in s.rows ::
            if id in due then Settled(s.rows[id], Some(s.rows[id].reservedCost)) else s.rows[id],
          s.events + map e: EventId | e in (set id | id in due :: HoldEvent(id)) ::
            HoldCharge(s.rows[e.session], Lookup(s.events, e)))
  }

  // --- the protocol: any interleaving of these transactions

  datatype Action =
    | DoReserve(id: SessionId, now: int, quotas: QuotaReads)
    | DoUpdate(id: SessionId, now: int, admission: Admission)
    | DoEmbeddingAttempt(id: SessionId, now: int, key: Key, query: string, quotaAllowed: bool, turn: bool)
    | DoResponseDone(id: SessionId, receipt: Receipt)
    | DoEmbeddingDone(id: SessionId, key: Key, result: Option<EmbeddingResult>)
    | DoLiveUsage(id: SessionId, usage: Usage)
    | DoClose(id: SessionId)
    | DoSweep(organization: string, now: int)
    | DoOtherUsage(number: nat, organization: string, cost: real, tokens: nat)

  /** Which receipt each session's ledger object was created with. */
  type Fleet = SessionId -> Terms

  ghost function Step(fleet: Fleet, s: Store, a: Action): Store {
    match a
    case DoReserve(id, now, quotas) => Reserve(s, id, fleet(id), now, quotas).store
    case DoUpdate(id, now, admission) => Update(s, id, fleet(id), now, admission).store
    case DoEmbeddingAttempt(id, now, key, query, quotaAllowed, turn) =>
      EmbeddingAttempt(s, id, fleet(id), now, key, query, quotaAllowed, turn).store
    case DoResponseDone(id, receipt) => ResponseDone(s, id, fleet(id), receipt).store
    case DoEmbeddingDone(id, key, result) => EmbeddingDone(s, id, fleet(id), key, result).store
    case DoLiveUsage(id, usage) => LiveUsage(s, id, fleet(id), usage).store
    case DoClose(id) => Close(s, id, fleet(id)).store
    case DoSweep(organization, now) => Sweep(s, organization, now)
    case DoOtherUsage(number, organization, cost, tokens) =>
      if cost < 0.0 then s
      else s.(events := InsertIfAbsent(s.events, OtherEvent(number), Event(organization, cost, tokens, true)))
  }

  /** All the states of a run: an empty database driven by any sequence of transactions. */
  ghost predicate Run(fleet: Fleet, actions: seq<Action>, states: seq<Store>) {
    && |states| == |actions| + 1
    && states[0] == Store(map[], map[])
    && forall i :: 0 <= i < |actions| ==> states[i + 1] == Step(fleet, states[i], actions[i])
  }

  /** The states that some run ends in. */
  ghost predicate Reachable(fleet: Fleet, s: Store) {
    exists actions: seq<Action>, states: seq<Store> :: Run(fleet, actions, states) && states[|actions|] == s
  }

  /** Every state of a run is one that some run ends in. */
  lemma {:induction false} RunReaches(fleet: Fleet, actions: seq<Action>, states: seq<Store>, n: nat)
    requires Run(fleet, actions, states) && n < |states|
    ensures Reachable(fleet, states[n])
  {
    hide Step;
    assert Run(fleet, actions[..n], states[..n + 1]) && states[..n + 1][|actions[..n]|] == states[n];
  }

  lemma {:induction false} ReachableStart(fleet: Fleet)
    ensures Reachable(fleet, Store(map[], map[]))
  {
    assert Run(fleet, [], [Store(map[], map[])]);
  }

  /** One more transaction leads to a reachable state. */
  lemma {:induction false} ReachableStep(fleet: Fleet, s: Store, a: Action)
    requires Reachable(fleet, s)
    ensures Reachable(fleet, Step(fleet, s, a))
  {
    hide Step;
    var actions: seq<Action>, states: seq<Store> :| Run(fleet, actions, states) && states[|actions|] == s;
    var longer, more := actions + [a], states + [Step(fleet, s, a)];
    forall i | 0 <= i < |longer| ensures more[i + 1] == Step(fleet, more[i], longer[i]) {
      if i < |actions| {
        assert states[i + 1] == Step(fleet, states[i], actions[i]);
      }
    }
    assert Run(fleet, longer, more) && more[|longer|] == Step(fleet, s, a);
  }

  lemma RunStart(fleet: Fleet, actions: seq<Action>, states: seq<Store>)
    requires Run(fleet, actions, states)
    ensures |states| == |actions| + 1 && states[0] == Store(map[], map[])
  {
    hide Step;
  }

  lemma RunStep(fleet: Fleet, actions: seq<Action>, states: seq<Store>, i: nat)
    requires Run(fleet, actions, states) && i + 1 < |states|
    ensures |states| == |actions| + 1 && states[i + 1] == Step(fleet, states[i], actions[i])
  {
    hide Step;
  }
}
