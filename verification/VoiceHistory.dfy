/** The session ledger as an append-only history, and receipts that may be delivered more than once. */
module VoiceHistory {
  import opened Options
  import opened Sums
  import opened VoiceConfig
  import opened VoiceLedger
  import opened VoiceInvariants
  import opened VoiceTheorems

  // --- nothing admitted or settled is ever forgotten or rewritten

  /** An admission keeps its key; a bound provider id and a settled estimate never change. */
  ghost predicate ResponseGrows(a: Response, b: Response) {
    && b.admission == a.admission
    && (a.responseId.Some? ==> b.responseId == a.responseId)
    && (a.done ==> b.done && b.estimate == a.estimate)
  }

  ghost predicate ResponsesGrow(a: seq<Response>, b: seq<Response>) {
    |a| <= |b| && forall i :: 0 <= i < |a| ==> ResponseGrows(a[i], b[i])
  }

  /** A remembered call keeps its key and body, and an acknowledgement is never withdrawn. */
  ghost predicate ToolsGrow(a: map<string, Tool>, b: map<string, Tool>) {
    forall call :: call in a ==>
      call in b && b[call].key == a[call].key && b[call].body == a[call].body
      && (a[call].acknowledged ==> b[call].acknowledged)
  }

  ghost predicate AttemptsGrow(a: seq<Attempt>, b: seq<Attempt>) {
    && |a| <= |b|
    && forall i :: 0 <= i < |a| ==> b[i].model == a[i].model && (a[i].received ==> b[i].received)
  }

  /** An embedding is resolved at most once. */
  ghost predicate EmbeddingsGrow(a: map<Key, EmbeddingState>, b: map<Key, EmbeddingState>) {
    forall k :: k in a ==> k in b && (a[k] != TransportMayStart ==> b[k] == a[k])
  }

  /** Once a Live session has started its transcript is only appended to. */
  ghost predicate TranscriptsGrow(a: Ledger, b: Ledger) {
    a.live.Some? ==> b.live.Some? && a.transcripts <= b.transcripts
  }

  ghost predicate Grows(a: Ledger, b: Ledger) {
    && ResponsesGrow(a.responses, b.responses) && ToolsGrow(a.tools, b.tools)
    && AttemptsGrow(a.reasoning, b.reasoning) && EmbeddingsGrow(a.embeddings, b.embeddings)
    && TranscriptsGrow(a, b) && a.audioBytes <= b.audioBytes && a.expiresAt == b.expiresAt
  }

  lemma {:induction false} SelfGrows(a: Ledger)
    ensures Grows(a, a)
  {
  }

  lemma {:induction false} GrowsTransitive(a: Ledger, b: Ledger, c: Ledger)
    requires Grows(a, b) && Grows(b, c)
    ensures Grows(a, c)
  {
    forall i | 0 <= i < |a.responses| ensures ResponseGrows(a.responses[i], c.responses[i]) {
      assert ResponseGrows(a.responses[i], b.responses[i]) && ResponseGrows(b.responses[i], c.responses[i]);
    }
  }

  lemma {:induction false} AdmitGrows(id: SessionId, t: Terms, admission: Admission, row: Row)
    requires Admit(id, t, admission, row).Changed?
    ensures Grows(row.ledger, Admit(id, t, admission, row).row.ledger)
  {
    hide Reservation, TranscriptBytes, Truncate;
    if admission.Respond? || admission.Bind? {
      hide ToolsGrow, AttemptsGrow, EmbeddingsGrow, TranscriptsGrow;
      SelfKeeps(row.ledger);
    } else if admission.RememberTool? || admission.AcknowledgeTool? || admission.Embed? {
      hide ResponsesGrow, AttemptsGrow, TranscriptsGrow;
      SelfKeeps(row.ledger);
    } else {
      hide ResponsesGrow, ToolsGrow, EmbeddingsGrow;
      SelfKeeps(row.ledger);
    }
  }

  lemma {:induction false} SelfKeeps(a: Ledger)
    ensures ResponsesGrow(a.responses, a.responses) && ToolsGrow(a.tools, a.tools)
    ensures AttemptsGrow(a.reasoning, a.reasoning) && EmbeddingsGrow(a.embeddings, a.embeddings)
    ensures forall b: Ledger :: b.live == a.live && b.transcripts == a.transcripts ==> TranscriptsGrow(a, b)
  {
  }

  lemma {:induction false} SettleGrows(s: Store, own: SessionId, id: SessionId, t: Terms, receipt: Receipt)
    requires id in s.rows
    ensures var s' := ResponseDone(s, own, t, receipt).store;
            id in s'.rows && Grows(s.rows[id].ledger, s'.rows[id].ledger)
  {
    hide ReceiptCost;
  }

  lemma {:induction false} ResolveGrows(
    s: Store, own: SessionId, id: SessionId, t: Terms, key: Key, result: Option<EmbeddingResult>)
    requires id in s.rows
    ensures var s' := EmbeddingDone(s, own, t, key, result).store;
            id in s'.rows && Grows(s.rows[id].ledger, s'.rows[id].ledger)
  {
    hide Times, ResponsesGrow, ToolsGrow, AttemptsGrow, WithinReceipt;
    SelfKeeps(s.rows[id].ledger);
  }

  lemma {:induction false} UsageGrows(s: Store, own: SessionId, id: SessionId, t: Terms, usage: Usage)
    requires id in s.rows
    ensures var s' := LiveUsage(s, own, t, usage).store;
            id in s'.rows && Grows(s.rows[id].ledger, s'.rows[id].ledger)
  {
    hide Times, ResponsesGrow, ToolsGrow, AttemptsGrow, EmbeddingsGrow;
    SelfKeeps(s.rows[id].ledger);
  }

  lemma {:induction false} UpdateGrows(
    s: Store, own: SessionId, id: SessionId, t: Terms, now: int, admission: Admission)
    requires id in s.rows
    ensures var s' := Update(s, own, t, now, admission).store;
            id in s'.rows && Grows(s.rows[id].ledger, s'.rows[id].ledger)
  {
    hide Admit, Grows;
    SelfGrows(s.rows[id].ledger);
    if Update(s, own, t, now, admission).outcome == Accepted {
      AdmitGrows(own, t, admission, s.rows[own]);
    }
  }

  lemma {:induction false} StepGrows(fleet: Fleet, s: Store, a: Action, id: SessionId)
    requires id in s.rows
    ensures id in Step(fleet, s, a).rows && Grows(s.rows[id].ledger, Step(fleet, s, a).rows[id].ledger)
  {
    hide Grows, Update, ResponseDone, EmbeddingDone, LiveUsage, Sweep, ReserveRefusal, TotalsOf, ClosingCost;
    SelfGrows(s.rows[id].ledger);
    match a {
      case DoReserve(_, _, _) =>
      case DoUpdate(own, now, admission) => UpdateGrows(s, own, id, fleet(own), now, admission);
      case DoEmbeddingAttempt(own, now, key, query, _, turn) =>
        UpdateGrows(s, own, id, fleet(own), now, Embed(key, query, turn));
      case DoResponseDone(own, receipt) => SettleGrows(s, own, id, fleet(own), receipt);
      case DoEmbeddingDone(own, key, result) => ResolveGrows(s, own, id, fleet(own), key, result);
      case DoLiveUsage(own, usage) => UsageGrows(s, own, id, fleet(own), usage);
      case DoClose(own) =>
      case DoSweep(organization, now) => SweepRowOf(s, organization, now, id);
      case DoOtherUsage(_, _, _, _) =>
    }
  }

  /**
   * Over any stretch of any run a session's ledger only grows: admissions, bindings, settled estimates, tool
   * bodies, acknowledgements, attempts, resolved embeddings and transcripts are never lost or rewritten.
   */
  lemma {:induction false} RunGrows(
    fleet: Fleet, actions: seq<Action>, states: seq<Store>, i: nat, j: nat, id: SessionId)
    requires Run(fleet, actions, states) && i <= j < |states| && id in states[i].rows
    ensures id in states[j].rows && Grows(states[i].rows[id].ledger, states[j].rows[id].ledger)
    decreases j - i
  {
    hide Run, Step, Grows;
    if i < j {
      RunStep(fleet, actions, states, j - 1);
      RunGrows(fleet, actions, states, i, j - 1, id);
      StepGrows(fleet, states[j - 1], actions[j - 1], id);
      GrowsTransitive(states[i].rows[id].ledger, states[j - 1].rows[id].ledger, states[j].rows[id].ledger);
    } else {
      SelfGrows(states[i].rows[id].ledger);
    }
  }

  // --- receipts delivered again

  lemma {:induction false} BoundAt(rs: seq<Response>, k: nat, responseId: string)
    requires k < |rs| && rs[k].responseId == Some(responseId)
    requires forall m :: 0 <= m < k ==> rs[m].responseId != Some(responseId)
    ensures FirstBound(rs, responseId) == k
  {
  }

  /** The responses of a session in a later state, for a provider id that was bound in an earlier one. */
  lemma {:induction false} BindingStays(a: seq<Response>, b: seq<Response>, k: nat, responseId: string)
    requires ResponsesGrow(a, b) && k < |a| && k == FirstBound(a, responseId)
    requires forall i, j :: 0 <= i < j < |a| && a[j].responseId.Some? ==> a[i].responseId.Some?
    ensures FirstBound(b, responseId) == k
  {
    hide FirstBound;
    forall m | 0 <= m < k ensures b[m].responseId != Some(responseId) {
      assert ResponseGrows(a[m], b[m]);
    }
    assert ResponseGrows(a[k], b[k]);
    BoundAt(b, k, responseId);
  }

  /** In every state of a run the bound admissions come before the unbound ones. */
  lemma {:induction false} BoundFirst(fleet: Fleet, actions: seq<Action>, states: seq<Store>, n: nat, id: SessionId)
    requires Run(fleet, actions, states) && n < |states| && id in states[n].rows
    ensures var rs := states[n].rows[id].ledger.responses;
            forall i, j :: 0 <= i < j < |rs| && rs[j].responseId.Some? ==> rs[i].responseId.Some?
  {
    hide Run;
    RunKeeps(fleet, actions, states, n);
    RowOf(fleet, states[n], id);
    hide Inv, Capped, EmbeddingsAccounted, DurationAccounted, HoldAccounted, ReleaseJustified, Identified;
  }

  lemma {:induction false} ReceiptSettles(s: Store, id: SessionId, t: Terms, receipt: Receipt)
    requires ResponseDone(s, id, t, receipt).outcome.Accepted?
    ensures id in s.rows && t.limits.route.Realtime?
    ensures var rs := s.rows[id].ledger.responses; var k := FirstBound(rs, receipt.id);
            var s' := ResponseDone(s, id, t, receipt).store;
            && k < |rs| && id in s'.rows && k < |s'.rows[id].ledger.responses| && s'.rows[id].ledger.responses[k].done
            && ResponsesGrow(rs, s'.rows[id].ledger.responses)
  {
    hide ReceiptCost, FirstBound;
  }

  lemma {:induction false} SettledIsReplayed(s: Store, id: SessionId, t: Terms, again: Receipt)
    requires t.limits.route.Realtime? && id in s.rows
    requires var rs := s.rows[id].ledger.responses; var k := FirstBound(rs, again.id); k < |rs| && rs[k].done
    ensures ResponseDone(s, id, t, again) == Reply(s, Replayed)
  {
    hide ReceiptCost, FirstBound;
  }

  /**
   * A response receipt settles at most once: however much later in a run the same provider id is delivered again,
   * with whatever usage, it changes nothing.
   */
  lemma {:induction false} ResponseReceiptOnce(
    fleet: Fleet, actions: seq<Action>, states: seq<Store>, i: nat, j: nat, id: SessionId, receipt: Receipt,
    again: Receipt)
    requires Run(fleet, actions, states) && i < j < |states| && receipt.id == again.id
    requires actions[i] == DoResponseDone(id, receipt)
    requires ResponseDone(states[i], id, fleet(id), receipt).outcome.Accepted?
    ensures ResponseDone(states[j], id, fleet(id), again) == Reply(states[j], Replayed)
  {
    RunStep(fleet, actions, states, i);
    ReceiptSettles(states[i], id, fleet(id), receipt);
    BoundFirst(fleet, actions, states, i, id);
    hide Run, ResponseDone, ResponsesGrow, ResponseGrows;
    RunGrows(fleet, actions, states, i, j, id);
    RunGrows(fleet, actions, states, i + 1, j, id);
    var was, now := states[i].rows[id].ledger.responses, states[j].rows[id].ledger.responses;
    BindingStays(was, now, FirstBound(was, receipt.id), receipt.id);
    DoneStays(states[i + 1].rows[id].ledger.responses, now, FirstBound(was, receipt.id));
    SettledIsReplayed(states[j], id, fleet(id), again);
  }

  lemma {:induction false} DoneStays(a: seq<Response>, b: seq<Response>, k: nat)
    requires ResponsesGrow(a, b) && k < |a| && a[k].done
    ensures k < |b| && b[k].done
  {
    assert ResponseGrows(a[k], b[k]);
  }

  /** An embedding is resolved at most once in a run, whatever a later result says and whenever it comes. */
  lemma {:induction false} EmbeddingReceiptOnce(
    fleet: Fleet, actions: seq<Action>, states: seq<Store>, i: nat, j: nat, id: SessionId, key: Key,
    result: Option<EmbeddingResult>, again: Option<EmbeddingResult>)
    requires Run(fleet, actions, states) && i < j < |states| && actions[i] == DoEmbeddingDone(id, key, result)
    requires EmbeddingDone(states[i], id, fleet(id), key, result).outcome.Accepted?
    ensures EmbeddingDone(states[j], id, fleet(id), key, again) == Reply(states[j], Replayed)
  {
    hide Times, WithinReceipt;
    RunStep(fleet, actions, states, i);
    hide Run;
    RunGrows(fleet, actions, states, i + 1, j, id);
    hide ResponsesGrow, ToolsGrow, AttemptsGrow, TranscriptsGrow;
  }

  /** What a final receipt that was recorded leaves behind. */
  lemma {:induction false} FinalRecorded(s: Store, id: SessionId, t: Terms, usage: Usage)
    requires usage.final && LiveUsage(s, id, t, usage).store != s
    ensures var s' := LiveUsage(s, id, t, usage).store;
            && id in s'.rows && t.limits.route.Live? && usage.seconds.Some? && usage.seconds.value >= 0.0
            && usage.reason in FINAL_REASONS && s'.rows[id].ledger.live.Some?
            && var live := s'.rows[id].ledger.live.value;
               && live.finalized && live.seconds == usage.seconds && live.reason == Some(usage.reason)
               && live.providerId == usage.providerId
  {
    hide Times;
  }

  /** Any receipt of a finalized session leaves the database alone; only an exact copy is accepted. */
  lemma {:induction false} FinalizedIsKept(s: Store, id: SessionId, t: Terms, usage: Usage, again: Usage)
    requires id in s.rows && t.limits.route.Live? && usage.seconds.Some? && usage.seconds.value >= 0.0
    requires usage.reason in FINAL_REASONS && s.rows[id].ledger.live.Some?
    requires var live := s.rows[id].ledger.live.value;
             && live.finalized && live.seconds == usage.seconds && live.reason == Some(usage.reason)
             && live.providerId == usage.providerId
    ensures LiveUsage(s, id, t, again).store == s
    ensures LiveUsage(s, id, t, again).outcome.Replayed? <==>
            && again.final && again.seconds == usage.seconds && again.reason == usage.reason
            && again.providerId == usage.providerId
  {
    hide Times;
  }

  /**
   * After a final Live receipt every receipt at any later point of a run leaves the database alone; only an exact
   * copy is accepted.
   */
  lemma {:induction false} FinalReceiptOnce(
    fleet: Fleet, actions: seq<Action>, states: seq<Store>, i: nat, j: nat, id: SessionId, usage: Usage, again: Usage)
    requires Run(fleet, actions, states) && i < j < |states| && actions[i] == DoLiveUsage(id, usage) && usage.final
    requires LiveUsage(states[i], id, fleet(id), usage).store != states[i]
    ensures LiveUsage(states[j], id, fleet(id), again).store == states[j]
    ensures LiveUsage(states[j], id, fleet(id), again).outcome.Replayed? <==>
            && again.final && again.seconds == usage.seconds && again.reason == usage.reason
            && again.providerId == usage.providerId
  {
    RunStep(fleet, actions, states, i);
    FinalRecorded(states[i], id, fleet(id), usage);
    hide Run, LiveUsage, AdmissionsFrozen;
    RunEvolves(fleet, actions, states, i + 1, j, id);
    FinalizedIsKept(states[j], id, fleet(id), usage, again);
  }
}
