/** The main results about the voice ledger, for every run and every state of it. */
module VoiceTheorems {
  import opened Options
  import opened Sums
  import opened VoiceConfig
  import opened VoiceLedger
  import opened VoiceInvariants

  // --- how a row may change, over any number of transactions

  /** Nothing that can cause new spend has been admitted. */
  ghost predicate AdmissionsFrozen(a: Row, b: Row) {
    && b.responseCount == a.responseCount && |b.ledger.responses| == |a.ledger.responses|
    && b.ledger.tools == a.ledger.tools && b.ledger.reasoning == a.ledger.reasoning
    && b.ledger.audioBytes == a.ledger.audioBytes && b.ledger.embeddings.Keys == a.ledger.embeddings.Keys
  }

  ghost predicate LiveAdvances(a: Option<LiveState>, b: Option<LiveState>) {
    a.Some? ==>
      && b.Some? && b.value.providerId == a.value.providerId
      && (a.value.seconds.Some? ==> b.value.seconds.Some? && a.value.seconds.value <= b.value.seconds.value)
      && (a.value.finalized ==> b == a)
  }

  /** The hold is immutable, a shut row stays shut and admits nothing, a final receipt never changes. */
  ghost predicate Evolves(a: Row, b: Row) {
    && b.reservedCost == a.reservedCost && b.organization == a.organization
    && b.budgetReference == a.budgetReference && b.ledger.digest == a.ledger.digest
    && (!Open(a) ==> !Open(b) && AdmissionsFrozen(a, b))
    && LiveAdvances(a.ledger.live, b.ledger.live)
  }

  lemma AdmitEvolves(id: SessionId, t: Terms, admission: Admission, row: Row)
    requires Open(row) && Admit(id, t, admission, row).Changed?
    ensures Evolves(row, Admit(id, t, admission, row).row)
  {
    hide Reservation, TranscriptBytes;
  }

  lemma ResponseDoneEvolves(s: Store, id: SessionId, own: SessionId, t: Terms, receipt: Receipt)
    requires id in s.rows
    ensures var s' := ResponseDone(s, own, t, receipt).store; id in s'.rows && Evolves(s.rows[id], s'.rows[id])
  {
    hide Times, ReceiptCost;
  }

  lemma EmbeddingDoneEvolves(
    s: Store, id: SessionId, own: SessionId, t: Terms, key: Key, result: Option<EmbeddingResult>)
    requires id in s.rows
    ensures var s' := EmbeddingDone(s, own, t, key, result).store; id in s'.rows && Evolves(s.rows[id], s'.rows[id])
  {
    hide Times;
    var s' := EmbeddingDone(s, own, t, key, result).store;
    assert s'.rows[id].ledger.embeddings.Keys == s.rows[id].ledger.embeddings.Keys;
  }

  lemma LiveUsageEvolves(s: Store, id: SessionId, own: SessionId, t: Terms, usage: Usage)
    requires id in s.rows
    ensures var s' := LiveUsage(s, own, t, usage).store; id in s'.rows && Evolves(s.rows[id], s'.rows[id])
  {
    hide Times;
  }

  lemma CloseEvolves(s: Store, id: SessionId, own: SessionId, t: Terms)
    requires id in s.rows
    ensures var s' := Close(s, own, t).store; id in s'.rows && Evolves(s.rows[id], s'.rows[id])
  {
    hide ClosingCost;
  }

  lemma SweepEvolves(s: Store, id: SessionId, organization: string, now: int)
    requires id in s.rows
    ensures var s' := Sweep(s, organization, now); id in s'.rows && Evolves(s.rows[id], s'.rows[id])
  {
    SweepRowOf(s, organization, now, id);
  }

  lemma StepEvolves(fleet: Fleet, s: Store, a: Action, id: SessionId)
    requires id in s.rows
    ensures id in Step(fleet, s, a).rows && Evolves(s.rows[id], Step(fleet, s, a).rows[id])
  {
    hide Evolves, Update, ResponseDone, EmbeddingDone, LiveUsage, Close, Sweep, ReserveRefusal, TotalsOf;
    SelfEvolves(s.rows[id]);
    match a {
      case DoReserve(_, _, _) =>
      case DoUpdate(own, now, admission) => UpdateEvolves(s, id, own, fleet(own), now, admission);
      case DoEmbeddingAttempt(own, now, key, query, _, turn) =>
        UpdateEvolves(s, id, own, fleet(own), now, Embed(key, query, turn));
      case DoResponseDone(own, receipt) => ResponseDoneEvolves(s, id, own, fleet(own), receipt);
      case DoEmbeddingDone(own, key, result) => EmbeddingDoneEvolves(s, id, own, fleet(own), key, result);
      case DoLiveUsage(own, usage) => LiveUsageEvolves(s, id, own, fleet(own), usage);
      case DoClose(own) => CloseEvolves(s, id, own, fleet(own));
      case DoSweep(organization, now) => SweepEvolves(s, id, organization, now);
      case DoOtherUsage(_, _, _, _) =>
    }
  }

  lemma SelfEvolves(row: Row)
    ensures Evolves(row, row)
  {
  }

  lemma UpdateEvolves(s: Store, id: SessionId, own: SessionId, t: Terms, now: int, admission: Admission)
    requires id in s.rows
    ensures var s' := Update(s, own, t, now, admission).store; id in s'.rows && Evolves(s.rows[id], s'.rows[id])
  {
    hide Admit, Evolves;
    SelfEvolves(s.rows[id]);
    if Update(s, own, t, now, admission).outcome == Accepted {
      AdmitEvolves(own, t, admission, s.rows[own]);
    }
  }

  /**
   * Between any two moments of any run: a row never disappears, its hold never changes, once close or
   * the sweep has shut it nothing is admitted and it is never reopened, recorded Live seconds never
   * decrease and a finalized receipt never changes.
   */
  lemma {:induction false} RunEvolves(
    fleet: Fleet, actions: seq<Action>, states: seq<Store>, i: nat, j: nat, id: SessionId)
    requires Run(fleet, actions, states) && i <= j < |states| && id in states[i].rows
    ensures id in states[j].rows && Evolves(states[i].rows[id], states[j].rows[id])
    decreases j - i
  {
    hide Run, Step;
    if i < j {
      RunStep(fleet, actions, states, j - 1);
      RunEvolves(fleet, actions, states, i, j - 1, id);
      StepEvolves(fleet, states[j - 1], actions[j - 1], id);
    }
  }
}
