/** What every transaction of the voice ledger keeps, row by row and event by event. */
module VoiceInvariants {
  import opened Options
  import opened Sums
  import opened VoiceConfig
  import opened VoiceLedger

  // --- the invariant of one row, in independent parts

  ghost predicate Identified(t: Terms, row: Row) {
    && row.organization == t.limits.organization && row.budgetReference == t.limits.budgetReference
    && row.reservedCost == Reservation(t) && row.ledger.digest == t
  }

  /** Every admission stays within the caps the reservation was computed from. */
  ghost predicate Capped(t: Terms, id: SessionId, row: Row) {
    var data, l := row.ledger, t.limits;
    && row.responseCount == |data.responses|
    && |data.responses| <= (if l.route.Realtime? then l.route.maximumResponses else 0)
    && data.audioBytes <= AUDIO_BYTES_PER_SECOND * l.maximumAudioSeconds
    && |data.tools| <= l.maximumTurns
    && |data.reasoning| <= 4 * l.maximumTurns
    && |data.embeddings| <= l.maximumTurns
    && (forall call :: call in data.tools ==> data.tools[call].key == Key(id, call))
    && (forall k :: k in data.embeddings ==> k.session == id)
  }

  ghost predicate EstimateBounded(t: Terms, r: Response) {
    && (!r.done ==> r.estimate.None?)
    && (r.estimate.Some? ==> t.limits.route.Realtime?
                             && 0.0 <= r.estimate.value <= WorstResponse(t.limits.route) / MILLION)
  }

  /** A settled response is the first one bound to its provider id, and owns that id's event. */
  ghost predicate SettledFirst(id: SessionId, rs: seq<Response>, i: nat, events: map<EventId, Event>)
    requires i < |rs|
  {
    && rs[i].responseId.Some?
    && (forall j :: 0 <= j < i ==> rs[j].responseId != rs[i].responseId)
    && var e := ResponseEvent(id, rs[i].responseId.value);
       e in events && events[e].cost == CostOrZero(rs[i].estimate)
  }

  ghost predicate SettledBy(rs: seq<Response>, responseId: string) {
    exists i :: 0 <= i < |rs| && rs[i].done && rs[i].responseId == Some(responseId)
  }

  ghost predicate ResponsesAccounted(t: Terms, id: SessionId, rs: seq<Response>, events: map<EventId, Event>) {
    && (forall i, j :: 0 <= i < j < |rs| && rs[j].responseId.Some? ==> rs[i].responseId.Some?)
    && (forall i :: 0 <= i < |rs| ==> EstimateBounded(t, rs[i]))
    && (forall i :: 0 <= i < |rs| && rs[i].done ==> SettledFirst(id, rs, i, events))
    && (forall rid :: ResponseEvent(id, rid) in events ==> SettledBy(rs, rid))
  }

  ghost predicate EmbeddingsAccounted(t: Terms, id: SessionId, data: Ledger, events: map<EventId, Event>) {
    forall k: Key :: EmbeddingEvent(k) in events && k.session == id ==>
      && k in data.embeddings && data.embeddings[k] != TransportMayStart
      && 0.0 <= events[EmbeddingEvent(k)].cost <= WorstEmbedding(t) / MILLION
  }

  ghost predicate LiveWellFormed(t: Terms, live: LiveState) {
    && t.limits.route.Live?
    && (live.finalized ==> live.seconds.Some? && live.reason.Some?)
    && (live.seconds.Some? ==>
          && live.seconds.value >= 0.0
          && live.within == (live.seconds.value <=
                             (t.limits.maximumSeconds + CLOSE_SECONDS + CLEANUP_SECONDS) as real))
  }

  /** The duration event is exactly the recorded seconds at the verified rate. */
  ghost predicate DurationAccounted(t: Terms, id: SessionId, data: Ledger, events: map<EventId, Event>) {
    && (data.live.Some? ==> LiveWellFormed(t, data.live.value))
    && (DurationEvent(id) in events <==> data.live.Some? && data.live.value.seconds.Some?)
    && (DurationEvent(id) in events && t.limits.route.Live? && data.live.Some? && data.live.value.seconds.Some? ==>
          events[DurationEvent(id)].cost == Times(data.live.value.seconds.value, UsdPerSecond(t)))
  }

  /** An expired-hold charge is the whole hold of a shut, unfinalized session without secondary work. */
  ghost predicate HoldAccounted(id: SessionId, row: Row, events: map<EventId, Event>) {
    HoldEvent(id) in events ==>
      && row.ledger.live.Some? && !row.ledger.live.value.finalized && !Secondary(row.ledger) && !Open(row)
      && events[HoldEvent(id)].cost == row.reservedCost
  }

  /** A released row is one whose spend is fully known, or whose hold was charged in full. */
  ghost predicate ReleaseJustified(t: Terms, id: SessionId, row: Row, events: map<EventId, Event>) {
    && (row.accountedCost.Some? <==> row.status == Closed)
    && (row.status == Closed ==>
          if t.limits.route.Realtime? then !Ambiguous(row.ledger)
          else
            && !Secondary(row.ledger)
            && row.ledger.live.Some? && (row.ledger.live.value.finalized || HoldEvent(id) in events))
  }

  ghost predicate RowInv(t: Terms, id: SessionId, row: Row, events: map<EventId, Event>) {
    && Identified(t, row)
    && Capped(t, id, row)
    && ResponsesAccounted(t, id, row.ledger.responses, events)
    && EmbeddingsAccounted(t, id, row.ledger, events)
    && DurationAccounted(t, id, row.ledger, events)
    && HoldAccounted(id, row, events)
    && ReleaseJustified(t, id, row, events)
  }

  /** Every event has a nonnegative cost, and a session's events belong to its row's organization. */
  ghost predicate EventInv(s: Store, e: EventId)
    requires e in s.events
  {
    && s.events[e].cost >= 0.0
    && (Owner(e).Some? ==> Owner(e).value in s.rows
                           && s.events[e].organization == s.rows[Owner(e).value].organization)
  }

  ghost predicate Inv(fleet: Fleet, s: Store) {
    && (forall e :: e in s.events ==> EventInv(s, e))
    && (forall id :: id in s.rows ==> RowInv(fleet(id), id, s.rows[id], s.events))
  }

  // --- frames: a transaction touches one session's row and events

  ghost predicate SameOwn(id: SessionId, events: map<EventId, Event>, events': map<EventId, Event>) {
    forall e: EventId :: Owner(e) == Some(id) ==> Lookup(events, e) == Lookup(events', e)
  }

  lemma FrameLookup(id: SessionId, events: map<EventId, Event>, events': map<EventId, Event>, e: EventId)
    requires SameOwn(id, events, events') && Owner(e) == Some(id)
    ensures e in events <==> e in events'
    ensures e in events ==> events[e] == events'[e]
  {
    assert Lookup(events, e) == Lookup(events', e);
  }

  lemma FrameRow(t: Terms, id: SessionId, row: Row, events: map<EventId, Event>, events': map<EventId, Event>)
    requires RowInv(t, id, row, events) && SameOwn(id, events, events')
    ensures RowInv(t, id, row, events')
  {
    FrameResponses(t, id, row.ledger.responses, events, events');
    forall k: Key | EmbeddingEvent(k) in events' && k.session == id
      ensures EmbeddingEvent(k) in events && events[EmbeddingEvent(k)] == events'[EmbeddingEvent(k)]
    {
      FrameLookup(id, events, events', EmbeddingEvent(k));
    }
    FrameLookup(id, events, events', DurationEvent(id));
    FrameLookup(id, events, events', HoldEvent(id));
  }

  lemma FrameResponses(
    t: Terms, id: SessionId, rs: seq<Response>, events: map<EventId, Event>, events': map<EventId, Event>)
    requires ResponsesAccounted(t, id, rs, events)
    requires forall rid :: Lookup(events, ResponseEvent(id, rid)) == Lookup(events', ResponseEvent(id, rid))
    ensures ResponsesAccounted(t, id, rs, events')
  {
    forall i | 0 <= i < |rs| && rs[i].done ensures SettledFirst(id, rs, i, events') {
      var rid := rs[i].responseId.value;
      assert Lookup(events, ResponseEvent(id, rid)) == Lookup(events', ResponseEvent(id, rid));
    }
    forall rid | ResponseEvent(id, rid) in events' ensures SettledBy(rs, rid) {
      assert Lookup(events, ResponseEvent(id, rid)) == Lookup(events', ResponseEvent(id, rid));
    }
  }

  /** Enough to keep the invariant: one row is re-established, the others keep their events. */
  lemma KeepOne(fleet: Fleet, s: Store, s': Store, id: SessionId)
    requires Inv(fleet, s)
    requires id in s'.rows && RowInv(fleet(id), id, s'.rows[id], s'.events)
    requires s'.rows.Keys == s.rows.Keys + {id}
    requires forall other :: other in s.rows && other != id ==> s'.rows[other] == s.rows[other]
    requires id in s.rows ==> s'.rows[id].organization == s.rows[id].organization
    requires forall e :: e in s'.events && Owner(e) != Some(id) ==>
               e in s.events && s'.events[e] == s.events[e]
    requires forall e :: e in s.events && Owner(e) != Some(id) ==> e in s'.events
    requires forall e :: e in s'.events && Owner(e) == Some(id) ==>
               s'.events[e].cost >= 0.0 && s'.events[e].organization == s'.rows[id].organization
    ensures Inv(fleet, s')
  {
    hide RowInv;
    forall other | other in s'.rows && other != id
      ensures RowInv(fleet(other), other, s'.rows[other], s'.events)
    {
      FrameRow(fleet(other), other, s.rows[other], s.events, s'.events);
    }
    forall e | e in s'.events ensures EventInv(s', e) {
      if Owner(e) != Some(id) {
        assert EventInv(s, e);
      }
    }
  }

  // --- each transaction re-establishes its own row

  /** Binding a provider id to the first unbound admission disturbs no settled response. */
  lemma BindKeeps(t: Terms, id: SessionId, rs: seq<Response>, rid: string, events: map<EventId, Event>)
    requires ResponsesAccounted(t, id, rs, events)
    requires FirstUnbound(rs) < |rs|
    ensures ResponsesAccounted(t, id, rs[FirstUnbound(rs) := rs[FirstUnbound(rs)].(responseId := Some(rid))], events)
  {
    var n := FirstUnbound(rs);
    var rs' := rs[n := rs[n].(responseId := Some(rid))];
    forall i | 0 <= i < |rs'| && rs'[i].done ensures SettledFirst(id, rs', i, events) {
      assert SettledFirst(id, rs, i, events);
    }
    forall r | ResponseEvent(id, r) in events ensures SettledBy(rs', r) {
      var i :| 0 <= i < |rs| && rs[i].done && rs[i].responseId == Some(r);
      assert rs'[i] == rs[i];
    }
  }

  lemma AppendKeeps(t: Terms, id: SessionId, rs: seq<Response>, key: nat, events: map<EventId, Event>)
    requires ResponsesAccounted(t, id, rs, events)
    ensures ResponsesAccounted(t, id, rs + [Response(key, None, false, None)], events)
  {
    var rs' := rs + [Response(key, None, false, None)];
    forall i | 0 <= i < |rs'| && rs'[i].done ensures SettledFirst(id, rs', i, events) {
      assert rs'[i] == rs[i] && SettledFirst(id, rs, i, events);
    }
    forall r | ResponseEvent(id, r) in events ensures SettledBy(rs', r) {
      var i :| 0 <= i < |rs| && rs[i].done && rs[i].responseId == Some(r);
      assert rs'[i] == rs[i];
    }
  }

  /** Replacing the responses of an open row needs only the responses' own part of the invariant. */
  lemma WithResponses(t: Terms, id: SessionId, row: Row, row': Row, events: map<EventId, Event>)
    requires RowInv(t, id, row, events) && Open(row)
    requires row' == row.(responseCount := row'.responseCount,
                          ledger := row.ledger.(responses := row'.ledger.responses))
    requires row'.responseCount == |row'.ledger.responses|
    requires |row'.ledger.responses| <= (if t.limits.route.Realtime? then t.limits.route.maximumResponses else 0)
    requires ResponsesAccounted(t, id, row'.ledger.responses, events)
    ensures RowInv(t, id, row', events)
  {
    hide Reservation, Times, WorstEmbedding, UsdPerSecond, ResponsesAccounted;
  }

  lemma AdmitBind(t: Terms, id: SessionId, admission: Admission, row: Row, events: map<EventId, Event>)
    requires RowInv(t, id, row, events) && Open(row) && admission.Bind?
    requires Admit(id, t, admission, row).Changed?
    ensures RowInv(t, id, Admit(id, t, admission, row).row, events)
  {
    hide Reservation, Times, TranscriptBytes, ResponsesAccounted;
    BindKeeps(t, id, row.ledger.responses, admission.responseId, events);
    assert |row.ledger.responses| == row.responseCount;
    hide RowInv;
    WithResponses(t, id, row, Admit(id, t, admission, row).row, events);
  }

  lemma AdmitRespond(t: Terms, id: SessionId, admission: Admission, row: Row, events: map<EventId, Event>)
    requires RowInv(t, id, row, events) && Open(row) && admission.Respond?
    requires Admit(id, t, admission, row).Changed?
    ensures RowInv(t, id, Admit(id, t, admission, row).row, events)
  {
    hide Reservation, Times, TranscriptBytes, ResponsesAccounted;
    AppendKeeps(t, id, row.ledger.responses, admission.admission, events);
    assert |row.ledger.responses| == row.responseCount;
    hide RowInv;
    WithResponses(t, id, row, Admit(id, t, admission, row).row, events);
  }

  lemma AdmitEmbed(t: Terms, id: SessionId, admission: Admission, row: Row, events: map<EventId, Event>)
    requires RowInv(t, id, row, events) && Open(row) && admission.Embed?
    requires Admit(id, t, admission, row).Changed?
    ensures RowInv(t, id, Admit(id, t, admission, row).row, events)
  {
    hide Reservation, Times, TranscriptBytes, ResponsesAccounted;
    var data, data' := row.ledger, Admit(id, t, admission, row).row.ledger;
    var call :| call in data.tools && data.tools[call].key == admission.key;
    assert |data'.embeddings| == |data.embeddings| + 1;
  }

  lemma {:induction false} AdmitTool(
    t: Terms, id: SessionId, admission: Admission, row: Row, events: map<EventId, Event>)
    requires RowInv(t, id, row, events) && Open(row) && (admission.RememberTool? || admission.AcknowledgeTool?)
    requires Admit(id, t, admission, row).Changed?
    ensures RowInv(t, id, Admit(id, t, admission, row).row, events)
  {
    hide RowInv, TranscriptBytes, Truncate, Reservation;
    var data, call := row.ledger, admission.call;
    var tool := if admission.RememberTool? then Tool(Key(id, call), admission.body, false)
                else data.tools[call].(acknowledged := true);
    assert Admit(id, t, admission, row).row == row.(ledger := data.(tools := data.tools[call := tool]));
    WithTool(t, id, row, call, tool, events);
  }

  /** A new call within the cap, or a call that keeps its key. */
  lemma {:induction false} WithTool(
    t: Terms, id: SessionId, row: Row, call: string, tool: Tool, events: map<EventId, Event>)
    requires RowInv(t, id, row, events) && Open(row)
    requires if call in row.ledger.tools then tool.key == row.ledger.tools[call].key
             else tool.key == Key(id, call) && |row.ledger.tools| < t.limits.maximumTurns
    ensures RowInv(t, id, row.(ledger := row.ledger.(tools := row.ledger.tools[call := tool])), events)
  {
    hide Reservation, Times;
    var row' := row.(ledger := row.ledger.(tools := row.ledger.tools[call := tool]));
    OtherParts(t, id, row, row', events);
    ToolAdded(row.ledger.tools, call, tool);
    hide ResponsesAccounted, EmbeddingsAccounted, DurationAccounted, HoldAccounted, ReleaseJustified, Identified;
    assert Capped(t, id, row');
  }

  lemma {:induction false} ToolAdded(tools: map<string, Tool>, call: string, tool: Tool)
    ensures |tools[call := tool]| == if call in tools then |tools| else |tools| + 1
  {
    var after := tools[call := tool];
    if call in tools {
      assert after.Keys == tools.Keys;
    } else {
      assert after.Keys == tools.Keys + {call};
    }
    assert |after| == |after.Keys| && |tools| == |tools.Keys|;
  }

  /** The parts of the invariant that an admission of a tool, of audio or of reasoning leaves alone. */
  lemma {:induction false} OtherParts(t: Terms, id: SessionId, row: Row, row': Row, events: map<EventId, Event>)
    requires RowInv(t, id, row, events) && Open(row) && Open(row')
    requires row' == row.(status := row'.status, ledger := row'.ledger)
    requires row'.ledger == row.ledger.(tools := row'.ledger.tools, audioBytes := row'.ledger.audioBytes,
                                        reasoning := row'.ledger.reasoning)
    ensures Identified(t, row') && ResponsesAccounted(t, id, row'.ledger.responses, events)
    ensures EmbeddingsAccounted(t, id, row'.ledger, events) && DurationAccounted(t, id, row'.ledger, events)
    ensures HoldAccounted(id, row', events) && ReleaseJustified(t, id, row', events)
  {
    hide Reservation, Times, ResponsesAccounted, LiveWellFormed, Ambiguous, Secondary, Capped;
  }

  lemma {:induction false} AdmitCounter(
    t: Terms, id: SessionId, admission: Admission, row: Row, events: map<EventId, Event>)
    requires RowInv(t, id, row, events) && Open(row)
    requires admission.Activate? || admission.Audio? || admission.Reason? || admission.ReasonDone?
    requires Admit(id, t, admission, row).Changed?
    ensures RowInv(t, id, Admit(id, t, admission, row).row, events)
  {
    hide Reservation, Times, TranscriptBytes, Truncate;
    OtherParts(t, id, row, Admit(id, t, admission, row).row, events);
    hide ResponsesAccounted, EmbeddingsAccounted, DurationAccounted, HoldAccounted, ReleaseJustified, Identified;
  }

  lemma AdmitLive(t: Terms, id: SessionId, admission: Admission, row: Row, events: map<EventId, Event>)
    requires RowInv(t, id, row, events) && Open(row) && (admission.StartLive? || admission.Transcribe?)
    requires Admit(id, t, admission, row).Changed?
    ensures RowInv(t, id, Admit(id, t, admission, row).row, events)
  {
    hide Reservation, Times, TranscriptBytes, ResponsesAccounted;
  }

  lemma AdmitKeeps(t: Terms, id: SessionId, admission: Admission, row: Row, events: map<EventId, Event>)
    requires RowInv(t, id, row, events) && Open(row)
    requires Admit(id, t, admission, row).Changed?
    ensures RowInv(t, id, Admit(id, t, admission, row).row, events)
    ensures Admit(id, t, admission, row).row.organization == row.organization
  {
    hide RowInv;
    match admission {
      case Bind(_) => AdmitBind(t, id, admission, row, events);
      case Respond(_) => AdmitRespond(t, id, admission, row, events);
      case Embed(_, _, _) => AdmitEmbed(t, id, admission, row, events);
      case RememberTool(_, _) => AdmitTool(t, id, admission, row, events);
      case AcknowledgeTool(_) => AdmitTool(t, id, admission, row, events);
      case StartLive(_) => AdmitLive(t, id, admission, row, events);
      case Transcribe(_, _) => AdmitLive(t, id, admission, row, events);
      case _ => AdmitCounter(t, id, admission, row, events);
    }
  }

  lemma ReceiptBounded(t: Terms, usage: Option<(int, int)>)
    requires t.limits.route.Realtime?
    requires ReceiptCost(t.limits.route, usage).Some?
    ensures 0.0 <= ReceiptCost(t.limits.route, usage).value <= WorstResponse(t.limits.route) / MILLION
  {
    PricedWithinWorst(t.limits.route, usage.value.0, usage.value.1);
  }

  lemma SettleResponse(
    t: Terms, id: SessionId, rs: seq<Response>, i: nat, cost: Option<real>,
    events: map<EventId, Event>, events': map<EventId, Event>)
    requires t.limits.route.Realtime? && ResponsesAccounted(t, id, rs, events)
    requires i < |rs| && !rs[i].done && rs[i].responseId.Some?
    requires forall j :: 0 <= j < i ==> rs[j].responseId != rs[i].responseId
    requires cost.Some? ==> 0.0 <= cost.value <= WorstResponse(t.limits.route) / MILLION
    requires var e := ResponseEvent(id, rs[i].responseId.value);
             && e in events' && (e !in events ==> events'[e].cost == CostOrZero(cost))
             && forall d :: d != e ==> Lookup(events, d) == Lookup(events', d)
    ensures ResponsesAccounted(t, id, rs[i := rs[i].(done := true, estimate := cost)], events')
    ensures ResponseEvent(id, rs[i].responseId.value) !in events
  {
    var rid := rs[i].responseId.value;
    var e := ResponseEvent(id, rid);
    var rs' := rs[i := rs[i].(done := true, estimate := cost)];
    forall j | 0 <= j < |rs'| && rs'[j].done ensures SettledFirst(id, rs', j, events') {
      if j != i {
        assert SettledFirst(id, rs, j, events);
        var d := ResponseEvent(id, rs[j].responseId.value);
        assert Lookup(events, d) == Lookup(events', d);
      }
    }
    forall r | ResponseEvent(id, r) in events' ensures SettledBy(rs', r) {
      if r == rid {
        assert rs'[i].done && rs'[i].responseId == Some(r);
      } else {
        assert Lookup(events, ResponseEvent(id, r)) == Lookup(events', ResponseEvent(id, r));
        var j :| 0 <= j < |rs| && rs[j].done && rs[j].responseId == Some(r);
        assert rs'[j] == rs[j];
      }
    }
  }

  /** Settling one response leaves the rest of the row's invariant alone. */
  lemma SettleRest(
    t: Terms, id: SessionId, row: Row, row': Row, events: map<EventId, Event>, events': map<EventId, Event>)
    requires RowInv(t, id, row, events) && t.limits.route.Realtime?
    requires row' == row.(ledger := row.ledger.(responses := row'.ledger.responses))
    requires |row'.ledger.responses| == |row.ledger.responses|
    requires ResponsesAccounted(t, id, row'.ledger.responses, events')
    requires exists r :: r in row.ledger.responses && !r.done
    requires forall e: EventId :: !e.ResponseEvent? ==> Lookup(events, e) == Lookup(events', e)
    ensures RowInv(t, id, row', events')
  {
    forall k: Key | EmbeddingEvent(k) in events' && k.session == id
      ensures EmbeddingEvent(k) in events && events[EmbeddingEvent(k)] == events'[EmbeddingEvent(k)]
    {
      assert Lookup(events, EmbeddingEvent(k)) == Lookup(events', EmbeddingEvent(k));
    }
    assert Lookup(events, DurationEvent(id)) == Lookup(events', DurationEvent(id));
    assert Lookup(events, HoldEvent(id)) == Lookup(events', HoldEvent(id));
  }

  lemma ResponseDoneRow(s: Store, id: SessionId, t: Terms, receipt: Receipt)
    requires id in s.rows && RowInv(t, id, s.rows[id], s.events)
    requires ResponseDone(s, id, t, receipt).outcome == Accepted
    ensures var s' := ResponseDone(s, id, t, receipt).store; RowInv(t, id, s'.rows[id], s'.events)
  {
    var s' := ResponseDone(s, id, t, receipt).store;
    var rs := s.rows[id].ledger.responses;
    var cost := ReceiptCost(t.limits.route, receipt.usage);
    if cost.Some? {
      ReceiptBounded(t, receipt.usage);
    }
    var i := FirstBound(rs, receipt.id);
    SettleResponse(t, id, rs, i, cost, s.events, s'.events);
    assert rs[i] in rs && !rs[i].done;
    SettleRest(t, id, s.rows[id], s'.rows[id], s.events, s'.events);
  }

  lemma EmbeddingCostBounded(t: Terms, tokens: nat)
    requires t.limits.embedding.Some? && tokens <= t.limits.embedding.value.maximumInputTokens
    ensures var cost := Times(tokens as real, t.limits.embedding.value.inputUsdPerMillion) / MILLION;
            0.0 <= cost <= WorstEmbedding(t) / MILLION
  {
    var price := t.limits.embedding.value;
    hide Times;
    TimesNonNegative(tokens as real, price.inputUsdPerMillion);
    TimesMonotone(tokens as real, price.maximumInputTokens as real, price.inputUsdPerMillion);
  }

  lemma SettleEmbedding(
    t: Terms, id: SessionId, row: Row, row': Row, key: Key, state: EmbeddingState,
    events: map<EventId, Event>, events': map<EventId, Event>)
    requires RowInv(t, id, row, events) && key in row.ledger.embeddings && state != TransportMayStart
    requires row' == row.(ledger := row.ledger.(embeddings := row.ledger.embeddings[key := state]))
    requires EmbeddingEvent(key) in events'
    requires 0.0 <= events'[EmbeddingEvent(key)].cost <= WorstEmbedding(t) / MILLION
    requires forall e :: e != EmbeddingEvent(key) ==> Lookup(events, e) == Lookup(events', e)
    ensures RowInv(t, id, row', events')
  {
    hide Reservation, WorstEmbedding, Times, UsdPerSecond, ResponsesAccounted;
    FrameResponses(t, id, row.ledger.responses, events, events');
    assert row'.ledger.embeddings.Keys == row.ledger.embeddings.Keys;
    assert |row'.ledger.embeddings| == |row.ledger.embeddings.Keys|;
    assert key in row'.ledger.embeddings;
    forall k: Key | EmbeddingEvent(k) in events' && k != key
      ensures EmbeddingEvent(k) in events && events[EmbeddingEvent(k)] == events'[EmbeddingEvent(k)]
    {
      assert Lookup(events, EmbeddingEvent(k)) == Lookup(events', EmbeddingEvent(k));
    }
    EmbeddingDoneRest(id, t, row, row', events, events');
  }

  lemma EmbeddingDoneRow(s: Store, id: SessionId, t: Terms, key: Key, result: Option<EmbeddingResult>)
    requires id in s.rows && RowInv(t, id, s.rows[id], s.events)
    requires EmbeddingDone(s, id, t, key, result).outcome == Accepted
    ensures var s' := EmbeddingDone(s, id, t, key, result).store;
            && RowInv(t, id, s'.rows[id], s'.events)
            && key.session == id && s'.events[EmbeddingEvent(key)].cost >= 0.0
  {
    var s' := EmbeddingDone(s, id, t, key, result).store;
    assert key.session == id;
    assert EmbeddingEvent(key) !in s.events;
    hide RowInv, Times, WorstEmbedding;
    var valid := WithinReceipt(t.limits.embedding.value, result);
    EmbeddingCostBounded(t, if valid then result.value.inputTokens else 0);
    SettleEmbedding(t, id, s.rows[id], s'.rows[id], key, if valid then Received else Unresolved, s.events, s'.events);
  }

  /** Settling an embedding touches neither the duration, nor the hold charge, nor a released row. */
  lemma EmbeddingDoneRest(
    id: SessionId, t: Terms, row: Row, row': Row, events: map<EventId, Event>, events': map<EventId, Event>)
    requires DurationAccounted(t, id, row.ledger, events) && HoldAccounted(id, row, events)
    requires ReleaseJustified(t, id, row, events)
    requires row' == row.(ledger := row.ledger.(embeddings := row'.ledger.embeddings))
    requires row.ledger.embeddings != map[] && row'.ledger.embeddings != map[]
    requires Lookup(events, DurationEvent(id)) == Lookup(events', DurationEvent(id))
    requires Lookup(events, HoldEvent(id)) == Lookup(events', HoldEvent(id))
    ensures DurationAccounted(t, id, row'.ledger, events') && HoldAccounted(id, row', events')
    ensures ReleaseJustified(t, id, row', events')
  {
    hide Times;
  }

  lemma RecordUsage(
    t: Terms, id: SessionId, row: Row, row': Row, live: LiveState,
    events: map<EventId, Event>, events': map<EventId, Event>)
    requires RowInv(t, id, row, events) && t.limits.route.Live?
    requires row.ledger.live.Some? && !row.ledger.live.value.finalized
    requires live.seconds.Some? && LiveWellFormed(t, live)
    requires row' == row.(ledger := row.ledger.(live := Some(live)))
    requires DurationEvent(id) in events'
    requires events'[DurationEvent(id)].cost == Times(live.seconds.value, UsdPerSecond(t))
    requires Lookup(events', HoldEvent(id)) == if live.finalized then None else Lookup(events, HoldEvent(id))
    requires forall e :: e != DurationEvent(id) && e != HoldEvent(id) ==> Lookup(events, e) == Lookup(events', e)
    ensures RowInv(t, id, row', events')
  {
    hide Reservation, WorstEmbedding, Times, UsdPerSecond, ResponsesAccounted;
    FrameResponses(t, id, row.ledger.responses, events, events');
    forall k: Key | EmbeddingEvent(k) in events'
      ensures EmbeddingEvent(k) in events && events[EmbeddingEvent(k)] == events'[EmbeddingEvent(k)]
    {
      assert Lookup(events, EmbeddingEvent(k)) == Lookup(events', EmbeddingEvent(k));
    }
  }

  lemma LiveUsageRow(s: Store, id: SessionId, t: Terms, usage: Usage)
    requires id in s.rows && RowInv(t, id, s.rows[id], s.events)
    requires LiveUsage(s, id, t, usage).store != s
    ensures var s' := LiveUsage(s, id, t, usage).store;
            && RowInv(t, id, s'.rows[id], s'.events)
            && DurationEvent(id) in s'.events && s'.events[DurationEvent(id)].cost >= 0.0
  {
    hide RowInv, Times;
    var s' := LiveUsage(s, id, t, usage).store;
    WorstCasesNonNegative(t);
    TimesNonNegative(usage.seconds.value, UsdPerSecond(t));
    RecordUsage(t, id, s.rows[id], s'.rows[id], s'.rows[id].ledger.live.value, s.events, s'.events);
  }

  /** What the sweep does to one event: a due session's hold charge is raised, nothing else moves. */
  lemma SweepLookup(s: Store, organization: string, now: int, e: EventId)
    ensures Lookup(Sweep(s, organization, now).events, e) ==
            if e.HoldEvent? && e.session in s.rows && Sweepable(s.rows[e.session], organization, now) then
              Some(HoldCharge(s.rows[e.session], Lookup(s.events, e)))
            else Lookup(s.events, e)
  {
  }

  lemma SweepRowOf(s: Store, organization: string, now: int, id: SessionId)
    requires id in s.rows
    ensures id in Sweep(s, organization, now).rows
    ensures Sweep(s, organization, now).rows[id] ==
            if Sweepable(s.rows[id], organization, now) then Settled(s.rows[id], Some(s.rows[id].reservedCost))
            else s.rows[id]
  {
  }

  lemma SweepRow(t: Terms, id: SessionId, row: Row, organization: string, now: int,
                 events: map<EventId, Event>, events': map<EventId, Event>)
    requires RowInv(t, id, row, events) && Sweepable(row, organization, now)
    requires forall e: EventId :: Owner(e) == Some(id) && e != HoldEvent(id) ==> Lookup(events, e) == Lookup(events', e)
    requires Lookup(events', HoldEvent(id)) == Some(HoldCharge(row, Lookup(events, HoldEvent(id))))
    ensures RowInv(t, id, Settled(row, Some(row.reservedCost)), events')
  {
    hide Reservation;
    FrameResponses(t, id, row.ledger.responses, events, events');
    hide ResponsesAccounted;
    forall k: Key | k.session == id ensures EmbeddingEvent(k) !in events' {
      assert Lookup(events, EmbeddingEvent(k)) == Lookup(events', EmbeddingEvent(k));
    }
    assert Lookup(events, DurationEvent(id)) == Lookup(events', DurationEvent(id));
  }

  // --- and leaves every other row alone

  lemma FreshRowInv(t: Terms, id: SessionId, now: int, events: map<EventId, Event>)
    requires forall e: EventId :: Owner(e) == Some(id) ==> e !in events
    ensures RowInv(t, id, FreshRow(t, now), events)
  {
  }

  lemma ReserveKeeps(fleet: Fleet, s: Store, id: SessionId, now: int)
    requires Inv(fleet, s) && id !in s.rows
    ensures Inv(fleet, s.(rows := s.rows[id := FreshRow(fleet(id), now)]))
  {
    hide RowInv;
    forall e: EventId | Owner(e) == Some(id) ensures e !in s.events {
      assert e in s.events ==> EventInv(s, e);
    }
    FreshRowInv(fleet(id), id, now, s.events);
    KeepOne(fleet, s, s.(rows := s.rows[id := FreshRow(fleet(id), now)]), id);
  }

  /** A transaction that rewrites one row and at most its own events keeps the invariant. */
  lemma KeepExisting(fleet: Fleet, s: Store, s': Store, id: SessionId, e': EventId)
    requires Inv(fleet, s) && id in s.rows && id in s'.rows
    requires RowInv(fleet(id), id, s'.rows[id], s'.events)
    requires s'.rows == s.rows[id := s'.rows[id]] && s'.rows[id].organization == s.rows[id].organization
    requires Owner(e') == Some(id)
    requires e' in s'.events ==> s'.events[e'].cost >= 0.0 && s'.events[e'].organization == s.rows[id].organization
    requires forall e :: e != e' && e in s'.events ==> e in s.events && s'.events[e] == s.events[e]
    requires forall e :: e in s.events && Owner(e) != Some(id) ==> e in s'.events
    ensures Inv(fleet, s')
  {
    hide RowInv;
    forall e | e in s'.events && Owner(e) == Some(id)
      ensures s'.events[e].cost >= 0.0 && s'.events[e].organization == s'.rows[id].organization
    {
      if e != e' {
        assert EventInv(s, e);
      }
    }
    KeepOne(fleet, s, s', id);
  }

  lemma UpdateKeeps(fleet: Fleet, s: Store, id: SessionId, now: int, admission: Admission)
    requires Inv(fleet, s)
    ensures Inv(fleet, Update(s, id, fleet(id), now, admission).store)
  {
    hide RowInv, Admit;
    var reply := Update(s, id, fleet(id), now, admission);
    if reply.outcome == Accepted {
      AdmitKeeps(fleet(id), id, admission, s.rows[id], s.events);
      assert HoldEvent(id) in s.events ==> EventInv(s, HoldEvent(id));
      KeepExisting(fleet, s, reply.store, id, HoldEvent(id));
    }
  }

  lemma ResponseDoneKeeps(fleet: Fleet, s: Store, id: SessionId, receipt: Receipt)
    requires Inv(fleet, s)
    ensures Inv(fleet, ResponseDone(s, id, fleet(id), receipt).store)
  {
    hide RowInv;
    var reply := ResponseDone(s, id, fleet(id), receipt);
    if reply.outcome == Accepted {
      ResponseDoneRow(s, id, fleet(id), receipt);
      var e := ResponseEvent(id, receipt.id);
      var cost := ReceiptCost(fleet(id).limits.route, receipt.usage);
      if cost.Some? {
        ReceiptBounded(fleet(id), receipt.usage);
      }
      assert e in s.events ==> EventInv(s, e);
      KeepExisting(fleet, s, reply.store, id, e);
    }
  }

  lemma EmbeddingDoneKeeps(fleet: Fleet, s: Store, id: SessionId, key: Key, result: Option<EmbeddingResult>)
    requires Inv(fleet, s)
    ensures Inv(fleet, EmbeddingDone(s, id, fleet(id), key, result).store)
  {
    hide RowInv;
    var reply := EmbeddingDone(s, id, fleet(id), key, result);
    if reply.outcome == Accepted {
      EmbeddingDoneRow(s, id, fleet(id), key, result);
      assert EmbeddingEvent(key) in s.events ==> EventInv(s, EmbeddingEvent(key));
      KeepExisting(fleet, s, reply.store, id, EmbeddingEvent(key));
    }
  }

  lemma LiveUsageKeeps(fleet: Fleet, s: Store, id: SessionId, usage: Usage)
    requires Inv(fleet, s)
    ensures Inv(fleet, LiveUsage(s, id, fleet(id), usage).store)
  {
    hide RowInv;
    var reply := LiveUsage(s, id, fleet(id), usage);
    if reply.store != s {
      LiveUsageRow(s, id, fleet(id), usage);
      KeepExisting(fleet, s, reply.store, id, DurationEvent(id));
    }
  }

  lemma CloseRow(t: Terms, id: SessionId, row: Row, events: map<EventId, Event>)
    requires RowInv(t, id, row, events)
    ensures RowInv(t, id, Settled(row, ClosingCost(t, row.ledger)), events)
  {
  }

  lemma CloseKeeps(fleet: Fleet, s: Store, id: SessionId)
    requires Inv(fleet, s)
    ensures Inv(fleet, Close(s, id, fleet(id)).store)
  {
    hide RowInv, ClosingCost;
    if id in s.rows {
      CloseRow(fleet(id), id, s.rows[id], s.events);
      assert HoldEvent(id) in s.events ==> EventInv(s, HoldEvent(id));
      KeepExisting(fleet, s, Close(s, id, fleet(id)).store, id, HoldEvent(id));
    }
  }

  lemma SweepKeeps(fleet: Fleet, s: Store, organization: string, now: int)
    requires Inv(fleet, s)
    ensures Inv(fleet, Sweep(s, organization, now))
  {
    hide RowInv, Sweep;
    var s' := Sweep(s, organization, now);
    forall e | e in s'.events ensures EventInv(s', e) {
      SweepEvent(fleet, s, organization, now, e);
    }
    forall id | id in s'.rows ensures RowInv(fleet(id), id, s'.rows[id], s'.events) {
      assert id in s.rows by { SweepKeys(s, organization, now); }
      SweepRowOf(s, organization, now, id);
      forall e: EventId ensures Lookup(s'.events, e) ==
          if e.HoldEvent? && e.session in s.rows && Sweepable(s.rows[e.session], organization, now) then
            Some(HoldCharge(s.rows[e.session], Lookup(s.events, e)))
          else Lookup(s.events, e)
      {
        SweepLookup(s, organization, now, e);
      }
      if Sweepable(s.rows[id], organization, now) {
        SweepRow(fleet(id), id, s.rows[id], organization, now, s.events, s'.events);
      } else {
        FrameRow(fleet(id), id, s.rows[id], s.events, s'.events);
      }
    }
  }

  lemma SweepKeys(s: Store, organization: string, now: int)
    ensures Sweep(s, organization, now).rows.Keys == s.rows.Keys
  {
  }

  lemma SweepEvent(fleet: Fleet, s: Store, organization: string, now: int, e: EventId)
    requires Inv(fleet, s) && e in Sweep(s, organization, now).events
    ensures EventInv(Sweep(s, organization, now), e)
  {
    hide Sweep, RowInv;
    SweepLookup(s, organization, now, e);
    SweepKeys(s, organization, now);
    if e in s.events {
      assert EventInv(s, e);
    }
    if Owner(e).Some? {
      SweepRowOf(s, organization, now, Owner(e).value);
      HoldNonNegative(fleet, s, Owner(e).value);
    }
  }

  lemma HoldNonNegative(fleet: Fleet, s: Store, id: SessionId)
    requires Inv(fleet, s) && id in s.rows
    ensures s.rows[id].reservedCost >= 0.0
  {
    hide Inv, ResponsesAccounted, EmbeddingsAccounted, DurationAccounted, HoldAccounted, ReleaseJustified, Capped;
    RowOf(fleet, s, id);
    WorstCasesNonNegative(fleet(id));
  }

  lemma OtherUsageKeeps(fleet: Fleet, s: Store, a: Action)
    requires Inv(fleet, s) && a.DoOtherUsage?
    ensures Inv(fleet, Step(fleet, s, a))
  {
    hide RowInv;
    var s' := Step(fleet, s, a);
    forall id | id in s'.rows ensures RowInv(fleet(id), id, s'.rows[id], s'.events) {
      FrameRow(fleet(id), id, s.rows[id], s.events, s'.events);
    }
    forall e | e in s'.events ensures EventInv(s', e) {
      if e in s.events {
        assert EventInv(s, e);
      }
    }
  }

  lemma StepKeeps(fleet: Fleet, s: Store, a: Action)
    requires Inv(fleet, s)
    ensures Inv(fleet, Step(fleet, s, a))
  {
    hide Inv;
    match a {
      case DoReserve(id, now, quotas) =>
        if Reserve(s, id, fleet(id), now, quotas).outcome == Accepted {
          ReserveKeeps(fleet, s, id, now);
        }
      case DoUpdate(id, now, admission) => UpdateKeeps(fleet, s, id, now, admission);
      case DoEmbeddingAttempt(id, now, key, query, _, turn) => UpdateKeeps(fleet, s, id, now, Embed(key, query, turn));
      case DoResponseDone(id, receipt) => ResponseDoneKeeps(fleet, s, id, receipt);
      case DoEmbeddingDone(id, key, result) => EmbeddingDoneKeeps(fleet, s, id, key, result);
      case DoLiveUsage(id, usage) => LiveUsageKeeps(fleet, s, id, usage);
      case DoClose(id) => CloseKeeps(fleet, s, id);
      case DoSweep(organization, now) => SweepKeeps(fleet, s, organization, now);
      case DoOtherUsage(_, _, _, _) => OtherUsageKeeps(fleet, s, a);
    }
  }

  lemma RowOf(fleet: Fleet, s: Store, id: SessionId)
    requires Inv(fleet, s) && id in s.rows
    ensures RowInv(fleet(id), id, s.rows[id], s.events)
  {
    hide RowInv;
  }

  /** Every state of every run satisfies the invariant. */
  lemma {:induction false} RunKeeps(fleet: Fleet, actions: seq<Action>, states: seq<Store>, n: nat)
    requires Run(fleet, actions, states) && n < |states|
    ensures Inv(fleet, states[n])
  {
    hide Run, Step, RowInv;
    RunStart(fleet, actions, states);
    if n > 0 {
      RunKeeps(fleet, actions, states, n - 1);
      RunStep(fleet, actions, states, n - 1);
      StepKeeps(fleet, states[n - 1], actions[n - 1]);
    }
  }

  lemma ReachableInv(fleet: Fleet, s: Store)
    requires Reachable(fleet, s)
    ensures Inv(fleet, s)
  {
    var actions: seq<Action>, states: seq<Store> :| Run(fleet, actions, states) && states[|actions|] == s;
    hide Run, Inv;
    RunStart(fleet, actions, states);
    RunKeeps(fleet, actions, states, |actions|);
  }
}
