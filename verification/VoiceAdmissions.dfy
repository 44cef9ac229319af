/**
 * What a session has admitted, read off the accepted actions of a run: the ledger records exactly that, the caps
 * are caps on that, and the hold covers that.
 */
module VoiceAdmissions {
  import opened Options
  import opened Sums
  import opened Utf8
  import opened VoiceConfig
  import opened VoiceLedger
  import opened VoiceInvariants
  import opened VoiceHistory
  import opened VoiceBudget

  // --- totals of accepted actions

  datatype Kind = AudioBytes | Responses | Calls | Attempts | Embeddings

  /** What an action that is accepted adds. */
  function Weight(kind: Kind, admission: Admission): nat {
    match (kind, admission)
    case (AudioBytes, Audio(length)) => length
    case (Responses, Respond(_)) => 1
    case (Calls, RememberTool(_, _)) => 1
    case (Attempts, Reason(_)) => 1
    case (Embeddings, Embed(_, _, _)) => 1
    case _ => 0
  }

  /** The outcome a caller of the action sees. */
  ghost function OutcomeOf(fleet: Fleet, s: Store, a: Action): Outcome {
    match a
    case DoReserve(id, now, quotas) => Reserve(s, id, fleet(id), now, quotas).outcome
    case DoUpdate(id, now, admission) => Update(s, id, fleet(id), now, admission).outcome
    case DoEmbeddingAttempt(id, now, key, query, quotaAllowed, turn) =>
      EmbeddingAttempt(s, id, fleet(id), now, key, query, quotaAllowed, turn).outcome
    case DoResponseDone(id, receipt) => ResponseDone(s, id, fleet(id), receipt).outcome
    case DoEmbeddingDone(id, key, result) => EmbeddingDone(s, id, fleet(id), key, result).outcome
    case DoLiveUsage(id, usage) => LiveUsage(s, id, fleet(id), usage).outcome
    case DoClose(id) => Close(s, id, fleet(id)).outcome
    case DoSweep(_, _) => Accepted
    case DoOtherUsage(_, _, _, _) => Accepted
  }

  /** What one action of a run adds to a session. */
  ghost function Added(kind: Kind, fleet: Fleet, s: Store, a: Action, id: SessionId): nat {
    if !OutcomeOf(fleet, s, a).Accepted? then 0
    else if a.DoUpdate? && a.id == id then Weight(kind, a.admission)
    else if a.DoEmbeddingAttempt? && a.id == id && kind == Embeddings then 1
    else 0
  }

  /** What the first `n` actions of a run added to a session. */
  ghost function Admitted(
    kind: Kind, fleet: Fleet, actions: seq<Action>, states: seq<Store>, id: SessionId, n: nat): nat
    requires n <= |actions| && |states| == |actions| + 1
  {
    if n == 0 then 0
    else Admitted(kind, fleet, actions, states, id, n - 1) + Added(kind, fleet, states[n - 1], actions[n - 1], id)
  }

  /** What the ledger of a session records. */
  function Recorded(kind: Kind, data: Ledger): nat {
    match kind
    case AudioBytes => data.audioBytes
    case Responses => |data.responses|
    case Calls => |data.tools|
    case Attempts => |data.reasoning|
    case Embeddings => |data.embeddings|
  }

  function RecordedIn(kind: Kind, s: Store, id: SessionId): nat {
    if id in s.rows then Recorded(kind, s.rows[id].ledger) else 0
  }

  // --- one step

  lemma {:induction false} InsertCount<K, V>(m: map<K, V>, k: K, v: V)
    ensures |m[k := v]| == (if k in m then |m| else |m| + 1)
  {
    var after := m[k := v];
    if k in m {
      assert after.Keys == m.Keys;
    } else {
      assert after.Keys == m.Keys + {k};
    }
    assert |after| == |after.Keys| && |m| == |m.Keys|;
  }

  lemma {:induction false} AdmitRecords(kind: Kind, id: SessionId, t: Terms, admission: Admission, row: Row)
    requires Admit(id, t, admission, row).Changed?
    ensures Recorded(kind, Admit(id, t, admission, row).row.ledger) ==
            Recorded(kind, row.ledger) + Weight(kind, admission)
  {
    hide Reservation, TranscriptBytes, Truncate;
    var data := row.ledger;
    match admission
    case RememberTool(call, body) => InsertCount(data.tools, call, Tool(Key(id, call), body, false));
    case AcknowledgeTool(call) => InsertCount(data.tools, call, data.tools[call].(acknowledged := true));
    case Embed(key, _, _) => InsertCount(data.embeddings, key, TransportMayStart);
    case _ =>
  }

  lemma {:induction false} UpdateRecords(
    kind: Kind, s: Store, own: SessionId, id: SessionId, t: Terms, now: int, admission: Admission)
    ensures var r := Update(s, own, t, now, admission);
            RecordedIn(kind, r.store, id) ==
            RecordedIn(kind, s, id) + (if r.outcome.Accepted? && own == id then Weight(kind, admission) else 0)
  {
    hide Admit, Weight, Recorded;
    if Update(s, own, t, now, admission).outcome.Accepted? {
      AdmitRecords(kind, own, t, admission, s.rows[own]);
    }
  }

  lemma {:induction false} ReceiptRecords(
    kind: Kind, s: Store, own: SessionId, id: SessionId, t: Terms, receipt: Receipt)
    ensures RecordedIn(kind, ResponseDone(s, own, t, receipt).store, id) == RecordedIn(kind, s, id)
  {
    hide ReceiptCost, FirstBound;
  }

  lemma {:induction false} ResultRecords(
    kind: Kind, s: Store, own: SessionId, id: SessionId, t: Terms, key: Key, result: Option<EmbeddingResult>)
    ensures RecordedIn(kind, EmbeddingDone(s, own, t, key, result).store, id) == RecordedIn(kind, s, id)
  {
    hide Times, WithinReceipt;
    if own in s.rows && key in s.rows[own].ledger.embeddings {
      InsertCount(s.rows[own].ledger.embeddings, key, Received);
      InsertCount(s.rows[own].ledger.embeddings, key, Unresolved);
    }
  }

  lemma {:induction false} UsageRecords(
    kind: Kind, s: Store, own: SessionId, id: SessionId, t: Terms, usage: Usage)
    ensures RecordedIn(kind, LiveUsage(s, own, t, usage).store, id) == RecordedIn(kind, s, id)
  {
    hide Times;
  }

  lemma {:induction false} SweepRecords(kind: Kind, s: Store, organization: string, now: int, id: SessionId)
    ensures RecordedIn(kind, Sweep(s, organization, now), id) == RecordedIn(kind, s, id)
  {
    SweepKeys(s, organization, now);
    if id in s.rows {
      SweepRowOf(s, organization, now, id);
    }
    hide Sweep, Sweepable;
  }

  lemma {:induction false} StepRecords(kind: Kind, fleet: Fleet, s: Store, a: Action, id: SessionId)
    ensures RecordedIn(kind, Step(fleet, s, a), id) == RecordedIn(kind, s, id) + Added(kind, fleet, s, a, id)
  {
    hide Update, ResponseDone, EmbeddingDone, LiveUsage, Sweep, ReserveRefusal, TotalsOf, ClosingCost, Weight;
    match a {
      case DoReserve(_, _, _) => FreshRecords(kind, fleet, s, a, id);
      case DoUpdate(own, now, admission) => UpdateRecords(kind, s, own, id, fleet(own), now, admission);
      case DoEmbeddingAttempt(own, now, key, query, _, turn) =>
        UpdateRecords(kind, s, own, id, fleet(own), now, Embed(key, query, turn));
        EmbedWeight(kind, key, query, turn);
      case DoResponseDone(own, receipt) => ReceiptRecords(kind, s, own, id, fleet(own), receipt);
      case DoEmbeddingDone(own, key, result) => ResultRecords(kind, s, own, id, fleet(own), key, result);
      case DoLiveUsage(own, usage) => UsageRecords(kind, s, own, id, fleet(own), usage);
      case DoClose(_) =>
      case DoSweep(organization, now) => SweepRecords(kind, s, organization, now, id);
      case DoOtherUsage(_, _, _, _) =>
    }
  }

  lemma {:induction false} EmbedWeight(kind: Kind, key: Key, query: string, turn: bool)
    ensures Weight(kind, Embed(key, query, turn)) == (if kind == Embeddings then 1 else 0)
  {
  }

  lemma {:induction false} FreshRecords(kind: Kind, fleet: Fleet, s: Store, a: Action, id: SessionId)
    requires a.DoReserve?
    ensures RecordedIn(kind, Step(fleet, s, a), id) == RecordedIn(kind, s, id)
  {
    hide ReserveRefusal, TotalsOf, Reservation, ReservedTokens, ReceiptDeadline;
  }

  // --- over runs

  /**
   * In every state of every run the ledger of a session records exactly what its accepted actions added: bytes of
   * audio, responses, tool calls, reasoning attempts and embeddings.
   */
  lemma {:induction false} LedgerRecordsAdmissions(
    kind: Kind, fleet: Fleet, actions: seq<Action>, states: seq<Store>, id: SessionId, n: nat)
    requires Run(fleet, actions, states) && n < |states|
    ensures |states| == |actions| + 1
    ensures RecordedIn(kind, states[n], id) == Admitted(kind, fleet, actions, states, id, n)
  {
    hide Run, Step, Added, Recorded;
    RunStart(fleet, actions, states);
    if n > 0 {
      RunStep(fleet, actions, states, n - 1);
      LedgerRecordsAdmissions(kind, fleet, actions, states, id, n - 1);
      StepRecords(kind, fleet, states[n - 1], actions[n - 1], id);
    }
  }

  /** The approved number of each kind of admission. */
  function ApprovedTotal(kind: Kind, l: Limits): nat {
    match kind
    case AudioBytes => 48000 * l.maximumAudioSeconds
    case Responses => if l.route.Realtime? then l.route.maximumResponses else 0
    case Calls => l.maximumTurns
    case Attempts => 4 * l.maximumTurns
    case Embeddings => l.maximumTurns
  }

  /** In no run do the accepted actions of a session add more than its receipt approves. */
  lemma {:induction false} AdmissionsWithinApproved(
    kind: Kind, fleet: Fleet, actions: seq<Action>, states: seq<Store>, id: SessionId, n: nat)
    requires Run(fleet, actions, states) && n < |states|
    ensures |states| == |actions| + 1
    ensures Admitted(kind, fleet, actions, states, id, n) <= ApprovedTotal(kind, fleet(id).limits)
  {
    LedgerRecordsAdmissions(kind, fleet, actions, states, id, n);
    RunKeeps(fleet, actions, states, n);
    hide Run, Admitted;
    if id in states[n].rows {
      RowOf(fleet, states[n], id);
      hide Inv, ResponsesAccounted, EmbeddingsAccounted, DurationAccounted, HoldAccounted, ReleaseJustified;
    }
  }

  /** The session may still change: its row is pending or active and its deadline lies ahead. */
  predicate Usable(s: Store, id: SessionId, now: int) {
    && id in s.rows && (s.rows[id].status == Pending || s.rows[id].status == Active)
    && now < s.rows[id].ledger.expiresAt
  }

  /** The conditions of an admission other than its cap. */
  predicate Admissible(s: Store, id: SessionId, t: Terms, admission: Admission)
    requires id in s.rows
  {
    match admission
    case Audio(_) => true
    case Respond(_) => t.limits.route.Realtime?
    case RememberTool(call, _) => call !in s.rows[id].ledger.tools
    case Reason(request) =>
      && request.model == t.limits.reasoning.model && request.maxTokens <= t.agentMaxOutputTokens
      && request.bytes <= t.limits.reasoning.maximumInputTokens
    case Embed(key, query, turn) =>
      var data := s.rows[id].ledger;
      && turn && key !in data.embeddings
      && exists call :: && call in data.tools && data.tools[call].key == key
                        && IsFront(query, data.tools[call].body.message)
    case _ => false
  }

  /** The first two thousand characters of a message, or all of it. */
  predicate IsFront(query: string, message: string) {
    query <= message && (query == message || |query| == 2000) && |query| <= 2000
  }

  predicate CountsAs(kind: Kind, admission: Admission) {
    match admission
    case Audio(_) => kind == AudioBytes
    case Respond(_) => kind == Responses
    case RememberTool(_, _) => kind == Calls
    case Reason(_) => kind == Attempts
    case Embed(_, _, _) => kind == Embeddings
    case _ => false
  }

  lemma {:induction false} FrontExact(query: string, message: string)
    ensures Truncate(message) == query <==> IsFront(query, message)
  {
  }

  lemma {:induction false} CapIff(
    kind: Kind, fleet: Fleet, s: Store, id: SessionId, now: int, admission: Admission)
    requires Inv(fleet, s) && Usable(s, id, now) && CountsAs(kind, admission)
    ensures Update(s, id, fleet(id), now, admission).outcome.Accepted? <==>
            && Admissible(s, id, fleet(id), admission)
            && RecordedIn(kind, s, id) + Weight(kind, admission) <= ApprovedTotal(kind, fleet(id).limits)
  {
    hide Inv, ResponsesAccounted, EmbeddingsAccounted, DurationAccounted, HoldAccounted, ReleaseJustified, Reservation;
    hide Truncate, TranscriptBytes;
    RowOf(fleet, s, id);
    if admission.Embed? {
      var data := s.rows[id].ledger;
      forall call | call in data.tools
        ensures Truncate(data.tools[call].body.message) == admission.query <==>
                IsFront(admission.query, data.tools[call].body.message)
      {
        FrontExact(admission.query, data.tools[call].body.message);
      }
      hide IsFront;
    }
  }

  /**
   * At any point of any run, an admission on an open, unexpired session is accepted if and only if it meets its own
   * conditions and, added to what the session's accepted actions added before, stays within what was approved.
   */
  lemma {:induction false} AcceptedIffWithinCap(
    kind: Kind, fleet: Fleet, actions: seq<Action>, states: seq<Store>, id: SessionId, n: nat, now: int,
    admission: Admission)
    requires Run(fleet, actions, states) && n < |states| && Usable(states[n], id, now)
    requires CountsAs(kind, admission)
    ensures |states| == |actions| + 1
    ensures Update(states[n], id, fleet(id), now, admission).outcome.Accepted? <==>
            && Admissible(states[n], id, fleet(id), admission)
            && Admitted(kind, fleet, actions, states, id, n) + Weight(kind, admission) <=
               ApprovedTotal(kind, fleet(id).limits)
  {
    LedgerRecordsAdmissions(kind, fleet, actions, states, id, n);
    RunKeeps(fleet, actions, states, n);
    hide Run, Inv, Update, Admissible, Usable;
    CapIff(kind, fleet, states[n], id, now, admission);
  }

  // --- what each admission changes

  function WithLedger(s: Store, id: SessionId, data: Ledger): Store
    requires id in s.rows
  {
    s.(rows := s.rows[id := s.rows[id].(ledger := data)])
  }

  /** A session that is missing, shut or past its deadline admits nothing. */
  lemma {:induction false} UnusableRefuses(s: Store, id: SessionId, t: Terms, now: int, admission: Admission)
    requires !Usable(s, id, now)
    ensures Update(s, id, t, now, admission).store == s && Update(s, id, t, now, admission).outcome.Refused?
  {
    hide Admit;
  }

  /** What an accepted admission leaves behind, kind by kind. */
  ghost predicate Effect(s: Store, s': Store, id: SessionId, admission: Admission)
    requires id in s.rows
  {
    var row, data := s.rows[id], s.rows[id].ledger;
    match admission
    case Activate => s' == s.(rows := s.rows[id := row.(status := Active)])
    case Audio(length) => s' == WithLedger(s, id, data.(audioBytes := data.audioBytes + length))
    case Respond(key) =>
      s' == s.(rows := s.rows[id := row.(
                 responseCount := row.responseCount + 1,
                 ledger := data.(responses := data.responses + [Response(key, None, false, None)]))])
    case Bind(responseId) =>
      exists k: nat :: FirstFree(data.responses, k)
        && s' == WithLedger(s, id, data.(
                   responses := data.responses[k := data.responses[k].(responseId := Some(responseId))]))
    case RememberTool(call, body) =>
      s' == WithLedger(s, id, data.(tools := data.tools[call := Tool(Key(id, call), body, false)]))
    case AcknowledgeTool(call) =>
      call in data.tools
      && s' == WithLedger(s, id, data.(tools := data.tools[call := data.tools[call].(acknowledged := true)]))
    case Reason(request) =>
      s' == WithLedger(s, id, data.(reasoning := data.reasoning + [Attempt(request.model, false)]))
    case ReasonDone(index) =>
      index < |data.reasoning|
      && s' == WithLedger(s, id, data.(
                 reasoning := data.reasoning[index := data.reasoning[index].(received := true)]))
    case Embed(key, _, _) =>
      s' == WithLedger(s, id, data.(embeddings := data.embeddings[key := TransportMayStart]))
    case StartLive(providerId) =>
      s' == s.(rows := s.rows[id := row.(
                 status := Active,
                 ledger := data.(live := Some(LiveState(providerId, false, None, None, false)), transcripts := []))])
    case Transcribe(role, fragment) =>
      s' == WithLedger(s, id, data.(transcripts := data.transcripts + [(role, fragment)]))
  }

  /** The first admission without a provider id. */
  ghost predicate FirstFree(rs: seq<Response>, k: nat) {
    k < |rs| && rs[k].responseId == None && forall m :: 0 <= m < k ==> rs[m].responseId != None
  }

  lemma {:induction false} AcceptedEffect(s: Store, id: SessionId, t: Terms, now: int, admission: Admission)
    requires Usable(s, id, now)
    ensures var r := Update(s, id, t, now, admission);
            if r.outcome.Accepted? then Effect(s, r.store, id, admission) else r.store == s
  {
    hide Reservation, TranscriptBytes, Truncate, FirstUnbound;
    if admission.Bind? {
      var rs := s.rows[id].ledger.responses;
      assert FirstUnbound(rs) < |rs| ==> FirstFree(rs, FirstUnbound(rs));
      hide FirstFree;
    }
  }

  /** The bytes of all fragments, each counted once. */
  function BytesOf(fragments: seq<(string, Fragment)>): nat {
    if fragments == [] then 0 else ByteLength(fragments[0].1.delta) + BytesOf(fragments[1..])
  }

  lemma {:induction false} BytesOfAppend(fragments: seq<(string, Fragment)>, f: (string, Fragment))
    ensures BytesOf(fragments + [f]) == BytesOf(fragments) + ByteLength(f.1.delta)
    decreases |fragments|
  {
    hide ByteLength;
    if fragments != [] {
      BytesOfAppend(fragments[1..], f);
      assert (fragments + [f])[1..] == fragments[1..] + [f];
    } else {
      assert ([] + [f])[1..] == [];
    }
  }

  lemma {:induction false} TranscriptBytesExact(fragments: seq<(string, Fragment)>)
    ensures TranscriptBytes(fragments) == BytesOf(fragments)
  {
    hide ByteLength;
    if fragments != [] {
      var n := |fragments| - 1;
      TranscriptBytesExact(fragments[..n]);
      BytesOfAppend(fragments[..n], fragments[n]);
      assert fragments == fragments[..n] + [fragments[n]];
    }
  }

  /** The admissions without an approved number: when each is accepted, and when it is only answered again. */
  lemma {:induction false} OthersIff(s: Store, id: SessionId, t: Terms, now: int, admission: Admission)
    requires Usable(s, id, now)
    ensures var data, o := s.rows[id].ledger, Update(s, id, t, now, admission).outcome;
            match admission
            case Activate => o == Accepted
            case Bind(_) => o.Accepted? <==> exists k: nat :: FirstFree(data.responses, k)
            case AcknowledgeTool(call) => o.Accepted? <==> call in data.tools
            case ReasonDone(index) => o.Accepted? <==> index < |data.reasoning|
            case StartLive(providerId) =>
              o.Accepted? <==> t.limits.route.Live? && providerId != "" && data.live == None
            case Transcribe(_, fragment) =>
              && (o.Replayed? <==>
                    data.live.Some? && exists f :: f in data.transcripts && f.1.eventId == fragment.eventId)
              && (o.Accepted? <==>
                    && data.live.Some? && !(exists f :: f in data.transcripts && f.1.eventId == fragment.eventId)
                    && |data.transcripts| < 512
                    && BytesOf(data.transcripts) + ByteLength(fragment.delta) <= 64000)
            case RememberTool(call, body) =>
              && (o.Replayed? <==> call in data.tools && data.tools[call].body == body)
              && (call in data.tools && data.tools[call].body != body ==> o == Refused(ToolConflict))
            case _ => !o.Replayed?
  {
    hide Reservation, Truncate, ByteLength, FirstUnbound;
    TranscriptBytesExact(s.rows[id].ledger.transcripts);
    hide TranscriptBytes, BytesOf;
    var rs := s.rows[id].ledger.responses;
    assert FirstUnbound(rs) < |rs| ==> FirstFree(rs, FirstUnbound(rs));
  }

  /** The reason an admission on an open, unexpired session is refused: the first of its conditions that fails. */
  lemma {:induction false} RefusalExact(s: Store, id: SessionId, t: Terms, now: int, admission: Admission)
    requires Usable(s, id, now) && Update(s, id, t, now, admission).outcome.Refused?
    ensures var data, l := s.rows[id].ledger, t.limits;
            Update(s, id, t, now, admission).outcome.reason ==
            match admission
            case Audio(_) => AudioExhausted
            case Respond(_) => if l.route.Live? then UnsupportedRoute else ResponseCap
            case Bind(_) => UnadmittedResponse
            case RememberTool(call, _) => if call in data.tools then ToolConflict else TurnCap
            case AcknowledgeTool(_) => UnknownTool
            case Reason(request) =>
              if |data.reasoning| >= 4 * l.maximumTurns then ReasoningCap
              else if request.model != l.reasoning.model || request.maxTokens > t.agentMaxOutputTokens then
                ReasoningRoute
              else ReasoningContext
            case ReasonDone(_) => UnknownAttempt
            case Embed(key, query, _) =>
              if data.digest != t || s.rows[id].reservedCost < Reservation(t) then EmbeddingReservation
              else if !(exists call :: && call in data.tools && data.tools[call].key == key
                                       && IsFront(query, data.tools[call].body.message)) then EmbeddingIdentity
              else if key in data.embeddings then EmbeddingAdmitted
              else if |data.embeddings| >= l.maximumTurns then EmbeddingTurnCap
              else EmbeddingTurnRequired
            case StartLive(_) => if l.route.Live? then LiveIdentity else UnsupportedRoute
            case Transcribe(_, _) => if data.live == None then UnsupportedRoute else TranscriptCap
            case Activate => SessionClosed
  {
    hide Reservation, TranscriptBytes, Truncate;
    if admission.Embed? {
      var data := s.rows[id].ledger;
      forall call | call in data.tools
        ensures Truncate(data.tools[call].body.message) == admission.query <==>
                IsFront(admission.query, data.tools[call].body.message)
      {
        FrontExact(admission.query, data.tools[call].body.message);
      }
      hide IsFront;
    }
  }

  /** An embedding attempt meets its receipt, size and quota conditions before it is admitted like any other. */
  lemma {:induction false} EmbeddingAttemptIff(
    s: Store, id: SessionId, t: Terms, now: int, key: Key, query: string, quotaAllowed: bool, turn: bool)
    ensures var l := t.limits;
            EmbeddingAttempt(s, id, t, now, key, query, quotaAllowed, turn).outcome.Accepted? <==>
            && l.embedding.Some? && l.embedding.value.model == t.embeddingsModel && now < l.embedding.value.validUntil
            && query != "" && ByteLength(query) <= l.embedding.value.maximumInputTokens && quotaAllowed
            && Update(s, id, t, now, Embed(key, query, turn)).outcome.Accepted?
    ensures var r := EmbeddingAttempt(s, id, t, now, key, query, quotaAllowed, turn);
            r.store == if r.outcome.Accepted? then Update(s, id, t, now, Embed(key, query, turn)).store else s
  {
    hide ByteLength;
    if Usable(s, id, now) {
      AcceptedEffect(s, id, t, now, Embed(key, query, turn));
    } else {
      UnusableRefuses(s, id, t, now, Embed(key, query, turn));
    }
    hide Update, Effect;
  }

  // --- the hold covers what was admitted

  /** What so many admissions may cost at worst: each at its receipt's ceiling and rate. */
  function WorstOf(t: Terms, bytes: nat, responses: nat, attempts: nat, embeddings: nat): real {
    (Times(attempts as real, WorstReasoning(t)) + Times(embeddings as real, WorstEmbedding(t))
     + (if t.limits.route.Realtime? then
          Times(responses as real, WorstResponse(t.limits.route))
          + Times(bytes as real / 48000.0,
                  Times(t.limits.route.audioTokensPerSecond, t.limits.route.audioInputUsdPerMillion))
        else 0.0)) / MILLION
  }

  /** Counts within the approved ones cost at most the reservation; a Live hold covers its seconds as well. */
  lemma {:induction false} WithinReservation(t: Terms, bytes: nat, responses: nat, attempts: nat, embeddings: nat)
    requires bytes <= ApprovedTotal(AudioBytes, t.limits) && responses <= ApprovedTotal(Responses, t.limits)
    requires attempts <= ApprovedTotal(Attempts, t.limits) && embeddings <= ApprovedTotal(Embeddings, t.limits)
    ensures WorstOf(t, bytes, responses, attempts, embeddings)
            + (if t.limits.route.Live? then Times(ReservedSeconds(t), UsdPerSecond(t)) else 0.0)
            <= Reservation(t)
  {
    hide Times, WorstResponse, WorstReasoning, WorstEmbedding, UsdPerSecond;
    WorstCasesNonNegative(t);
    var l := t.limits;
    TimesMonotone(attempts as real, (l.maximumTurns * 4) as real, WorstReasoning(t));
    TimesMonotone(embeddings as real, l.maximumTurns as real, WorstEmbedding(t));
    if l.route.Realtime? {
      TimesMonotone(responses as real, l.route.maximumResponses as real, WorstResponse(l.route));
      AudioSeconds(bytes, l.maximumAudioSeconds);
      AudioMonotone(t, bytes as real / 48000.0, l.maximumAudioSeconds as real);
    }
  }

  /**
   * At every point of every run the hold of a session covers everything its accepted actions admitted, each at its
   * worst case; a Live session's hold also covers the reserved seconds.
   */
  lemma {:induction false} HoldCoversAdmissions(
    fleet: Fleet, actions: seq<Action>, states: seq<Store>, id: SessionId, n: nat)
    requires Run(fleet, actions, states) && n < |states| && id in states[n].rows
    ensures |states| == |actions| + 1
    ensures var t := fleet(id);
            WorstOf(t, Admitted(AudioBytes, fleet, actions, states, id, n),
                    Admitted(Responses, fleet, actions, states, id, n),
                    Admitted(Attempts, fleet, actions, states, id, n),
                    Admitted(Embeddings, fleet, actions, states, id, n))
            + (if t.limits.route.Live? then Times(ReservedSeconds(t), UsdPerSecond(t)) else 0.0)
            <= states[n].rows[id].reservedCost
  {
    RunStart(fleet, actions, states);
    hide Run, Admitted, Inv, Times, WorstOf, UsdPerSecond, ReservedSeconds, Reservation, ApprovedTotal;
    AdmissionsWithinApproved(AudioBytes, fleet, actions, states, id, n);
    AdmissionsWithinApproved(Responses, fleet, actions, states, id, n);
    AdmissionsWithinApproved(Attempts, fleet, actions, states, id, n);
    AdmissionsWithinApproved(Embeddings, fleet, actions, states, id, n);
    RunKeeps(fleet, actions, states, n);
    RowIdentity(fleet, states[n], id);
    WithinReservation(fleet(id), Admitted(AudioBytes, fleet, actions, states, id, n),
                      Admitted(Responses, fleet, actions, states, id, n),
                      Admitted(Attempts, fleet, actions, states, id, n),
                      Admitted(Embeddings, fleet, actions, states, id, n));
  }

  /**
   * At every point of every run the hold covers the priced events, the accepted reasoning attempts at worst case and
   * the accepted audio or measured duration, all but a Live overrun.
   */
  lemma {:induction false} SpendWithinAdmissions(
    fleet: Fleet, actions: seq<Action>, states: seq<Store>, id: SessionId, n: nat)
    requires Run(fleet, actions, states) && n < |states| && id in states[n].rows
    ensures |states| == |actions| + 1
    ensures var s, t := states[n], fleet(id);
            Sum(ResponseCosts(s, id)) + Sum(EmbeddingCosts(s, id))
            + Times(Admitted(Attempts, fleet, actions, states, id, n) as real, WorstReasoning(t)) / MILLION
            + (if t.limits.route.Realtime? then
                 AudioCost(t, Admitted(AudioBytes, fleet, actions, states, id, n) as real / 48000.0) / MILLION
               else VoiceCost(t, s, id))
            <= s.rows[id].reservedCost + Overrun(t, s.rows[id].ledger)
  {
    RunReaches(fleet, actions, states, n);
    ReservationDominatesSpend(fleet, states[n], id);
    LedgerRecordsAdmissions(Attempts, fleet, actions, states, id, n);
    LedgerRecordsAdmissions(AudioBytes, fleet, actions, states, id, n);
    hide Run, Admitted, Times, Sum, WorstReasoning, AudioCost, Reachable, Overrun;
  }

  /** A realtime row is released only if nothing but settled responses and acknowledged calls was ever admitted. */
  lemma {:induction false} ReleasedMeansSettled(
    fleet: Fleet, actions: seq<Action>, states: seq<Store>, id: SessionId, n: nat)
    requires Run(fleet, actions, states) && n < |states| && id in states[n].rows && fleet(id).limits.route.Realtime?
    requires states[n].rows[id].status == Closed || states[n].rows[id].accountedCost.Some?
    ensures |states| == |actions| + 1
    ensures Admitted(AudioBytes, fleet, actions, states, id, n) == 0
    ensures Admitted(Attempts, fleet, actions, states, id, n) == 0
    ensures Admitted(Embeddings, fleet, actions, states, id, n) == 0
    ensures var rs := states[n].rows[id].ledger.responses;
            && |rs| == Admitted(Responses, fleet, actions, states, id, n)
            && forall i :: 0 <= i < |rs| ==> rs[i].done && rs[i].estimate.Some?
  {
    LedgerRecordsAdmissions(AudioBytes, fleet, actions, states, id, n);
    LedgerRecordsAdmissions(Attempts, fleet, actions, states, id, n);
    LedgerRecordsAdmissions(Embeddings, fleet, actions, states, id, n);
    LedgerRecordsAdmissions(Responses, fleet, actions, states, id, n);
    RunReaches(fleet, actions, states, n);
    hide Run, Reachable, Admitted;
    RealtimeReleaseJustified(fleet, states[n], id);
  }

  // --- the deadline

  /** The deadline of a session reserved at a moment lies within its seconds and within every receipt it relies on. */
  predicate Before(t: Terms, reserved: int, now: int) {
    var l := t.limits;
    && now < reserved + l.maximumSeconds && now < l.validUntil && now < l.reasoning.validUntil
    && (l.route.Realtime? ==> now < l.route.price.validUntil) && (l.route.Live? ==> now < l.route.liveValidUntil)
    && (l.embedding.Some? ==> now < l.embedding.value.validUntil)
  }

  lemma {:induction false} DeadlineExact(t: Terms, reserved: int, now: int)
    ensures now < FreshRow(t, reserved).ledger.expiresAt <==> Before(t, reserved, now)
  {
    hide Reservation, ReservedTokens;
  }

  /**
   * The deadline fixed by the reserve holds for the rest of the run: an action on the session that is not refused
   * happens within its seconds and before every receipt it relies on expires, and the row says exactly that.
   */
  lemma {:induction false} NothingAfterDeadline(
    fleet: Fleet, actions: seq<Action>, states: seq<Store>, i: nat, j: nat, id: SessionId, reserved: int,
    quotas: QuotaReads, now: int)
    requires Run(fleet, actions, states) && i < j < |states|
    requires i < |actions| && actions[i] == DoReserve(id, reserved, quotas)
    requires Reserve(states[i], id, fleet(id), reserved, quotas).outcome.Accepted?
    ensures id in states[j].rows && (now < states[j].rows[id].ledger.expiresAt <==> Before(fleet(id), reserved, now))
    ensures forall admission ::
              !Update(states[j], id, fleet(id), now, admission).outcome.Refused? ==> Before(fleet(id), reserved, now)
  {
    RunStep(fleet, actions, states, i);
    DeadlineExact(fleet(id), reserved, now);
    assert states[i + 1].rows[id] == FreshRow(fleet(id), reserved) by {
      hide ReserveRefusal, TotalsOf, FreshRow;
    }
    hide Run, FreshRow, Before, Admit, Reserve;
    RunGrows(fleet, actions, states, i + 1, j, id);
    hide ResponsesGrow, ToolsGrow, AttemptsGrow, EmbeddingsGrow, TranscriptsGrow;
  }
}
