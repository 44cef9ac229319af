/** The note store and capture service as they run: fields reassigned in place, loops over the plan. */
module CaptureService {
  import opened Options
  import opened Capture
  import opened CaptureTheorems
  import opened CaptureRuns

  /** The fingerprints and targets of the first suggestions of a plan. */
  ghost predicate Seen(entries: seq<Suggestion>, k: nat, suggestions: set<Suggestion>, targets: set<nat>)
    requires k <= |entries|
  {
    && (forall j :: 0 <= j < k ==> Fingerprint(entries[j]) in suggestions)
    && (forall f :: f in suggestions ==> exists j :: 0 <= j < k && Fingerprint(entries[j]) == f)
    && (forall j :: 0 <= j < k && entries[j].target.Some? ==> entries[j].target.value in targets)
    && (forall t :: t in targets ==> exists j :: 0 <= j < k && entries[j].target == Some(t))
  }

  lemma {:induction false} SeenOneMore(
    entries: seq<Suggestion>, k: nat, suggestions: set<Suggestion>, targets: set<nat>)
    requires k < |entries| && Seen(entries, k, suggestions, targets)
    ensures var t := entries[k].target;
            Seen(entries, k + 1, suggestions + {Fingerprint(entries[k])},
                 if t.Some? then targets + {t.value} else targets)
  {
    hide Fingerprint;
  }

  lemma {:induction false} SeenExact(entries: seq<Suggestion>, k: nat, suggestions: set<Suggestion>, targets: set<nat>)
    requires k < |entries| && Seen(entries, k, suggestions, targets)
    ensures Fingerprint(entries[k]) in suggestions <==>
            exists j :: 0 <= j < k && Fingerprint(entries[j]) == Fingerprint(entries[k])
    ensures entries[k].target.Some? ==>
              (entries[k].target.value in targets <==> exists j :: 0 <= j < k && entries[j].target == entries[k].target)
  {
    hide Fingerprint;
  }

  /** One turn of the loop of `_validate`, against the sets seen so far. */
  method ValidateOne(
    entries: seq<Suggestion>, k: nat, suggestions: set<Suggestion>, targets: set<nat>, p: Prepared)
    returns (error: Option<Error>)
    requires k < |entries| && Seen(entries, k, suggestions, targets)
    ensures error == SuggestionError(entries, k, p)
  {
    SeenExact(entries, k, suggestions, targets);
    hide Seen, Quoted, Cites, Allowed, Fingerprint;
    var s := entries[k];
    if Fingerprint(s) in suggestions {
      return Some(DuplicateSuggestion);
    }
    if s.target.Some? && s.target.value in targets {
      return Some(DuplicateTarget);
    }
    if !Quoted(s, Allowed(p)) {
      return Some(QuoteNotInSource);
    }
    if !Cites(s, p.current) {
      return Some(CurrentNotSupported);
    }
    if s.target.Some? && s.target.value !in p.revisions {
      return Some(TargetNotSupplied);
    }
    if s.category == "strategies" && s.draft.None? {
      return Some(DraftRequired);
    }
    return None;
  }

  /** `_validate`: one pass that grows the sets of fingerprints and targets seen so far. */
  method Validate(entries: seq<Suggestion>, p: Prepared) returns (error: Option<Error>)
    ensures error == FirstError(entries, |entries|, p)
    ensures error.None? <==> ValidPlan(entries, |entries|, p)
  {
    hide ValidPlan, Seen, SuggestionError;
    ValidationExact(entries, |entries|, p);
    var suggestions, targets := {}, {};
    SeenNothing(entries);
    error := None;
    for k := 0 to |entries|
      invariant error.None? && FirstError(entries, k, p).None?
      invariant Seen(entries, k, suggestions, targets)
    {
      error := ValidateOne(entries, k, suggestions, targets, p);
      if error.Some? {
        FirstErrorStays(entries, k + 1, |entries|, p);
        return;
      }
      SeenOneMore(entries, k, suggestions, targets);
      suggestions := suggestions + {Fingerprint(entries[k])};
      if entries[k].target.Some? {
        targets := targets + {entries[k].target.value};
      }
    }
  }

  lemma {:induction false} SeenNothing(entries: seq<Suggestion>)
    ensures Seen(entries, 0, {}, {})
  {
  }

  lemma {:induction false} FirstErrorStays(entries: seq<Suggestion>, n: nat, m: nat, p: Prepared)
    requires n <= m <= |entries| && FirstError(entries, n, p).Some?
    ensures FirstError(entries, m, p) == FirstError(entries, n, p)
    decreases m
  {
    hide SuggestionError;
    if n < m {
      FirstErrorStays(entries, n, m - 1, p);
    }
  }

  lemma {:induction false} TargetErrorStays(entries: map<nat, Row>, items: seq<Suggestion>, n: nat, m: nat, p: Prepared)
    requires n <= m <= |items| && FirstTargetError(entries, items, n, p).Some?
    ensures FirstTargetError(entries, items, m, p) == FirstTargetError(entries, items, n, p)
    decreases m
  {
    hide TargetError;
    if n < m {
      TargetErrorStays(entries, items, n, m - 1, p);
    }
  }

  lemma {:induction false} PersistPrefix(
    s: Store, p: Prepared, items: seq<Suggestion>, n: nat, m: nat, trade: Option<nat>)
    requires n <= m <= |items| && Persist(s, p, items, m, trade).Ok?
    ensures Persist(s, p, items, n, trade).Ok?
    decreases m
  {
    hide PersistItem;
    if n < m {
      PersistPrefix(s, p, items, n, m - 1, trade);
    }
  }

  /** The assignments of `update_entry` to a row that passed its checks. */
  method ChangedRow(was: Row, change: Change) returns (row: Row)
    requires was.revision == change.expected && !was.undone && !(change.undo && Corrects(change))
    ensures UpdateRow(was, change) == Ok(row)
  {
    row := was;
    var before := SnapshotOf(row);
    if change.undo {
      if row.history != [] {
        var previous := row.history[|row.history| - 1];
        row := row.(content := previous.content, undone := previous.undone);
        row := row.(history := row.history[..|row.history| - 1]);
      } else {
        row := row.(undone := true);
      }
    } else {
      row := row.(history := row.history + [before]);
      row := row.(content := row.content.(category := Or(change.category, row.content.category)));
      row := row.(content := row.content.(title := Or(change.title, row.content.title)));
      row := row.(content := row.content.(summary := Or(change.summary, row.content.summary)));
    }
    row := row.(revision := row.revision + 1);
  }

  /** The end of `prepare`: the snapshot, from the results of queries that may have run in different states. */
  method Assemble(
    owner: nat, message: nat, document: Option<nat>, current: string, digest: nat, history: seq<Message>,
    recent: map<nat, nat>, relevant: map<nat, nat>)
    returns (p: Prepared)
    ensures p.owner == owner && p.digest == digest && p.revisions == MergedReads(recent, relevant)
    ensures forall id :: id in p.revisions <==> id in recent || id in relevant
    ensures forall id :: id in relevant ==> p.revisions[id] == relevant[id]
  {
    p := Prepared(owner, message, document, current, digest, history, MergedReads(recent, relevant));
  }

  class CaptureStore {
    var entries: map<nat, Row>
    var sources: seq<Source>
    var next: nat

    function View(): Store
      reads this
    {
      Store(entries, sources, next)
    }

    constructor ()
      ensures View() == EMPTY && Inv(View())
    {
      entries, sources, next := map[], [], 0;
      EmptyKeeps();
    }

    /** `update_entry`: an error leaves the row alone. */
    method UpdateEntry(owner: nat, id: nat, change: Change) returns (result: Result<Row>)
      requires Inv(View())
      modifies this`entries
      ensures Inv(View())
      ensures var r := Update(old(View()), owner, id, change);
              if r.Err? then result == Err(r.error) && View() == old(View())
              else View() == r.value && id in entries && result == Ok(entries[id])
      ensures result.Ok? && !old(entries)[id].undone ==>
                result.value.revision == change.expected + 1 &&
                VersionsOf(result.value) == (if change.undo then Pop(VersionsOf(old(entries)[id]))
                                             else Push(VersionsOf(old(entries)[id]), result.value.content))
    {
      if !Owned(entries, owner, id) {
        return Err(NotFound);
      }
      var row := entries[id];
      if row.revision != change.expected {
        return Err(Conflict);
      }
      if row.undone {
        assert entries == entries[id := row];
        return Ok(row);
      }
      if change.undo && Corrects(change) {
        return Err(UndoWithCorrection);
      }
      UpdateRefinesStack(row, change);
      EditKeeps(View(), owner, id, change);
      hide Inv, VersionsOf, Push, Pop, RowInv, UpdateRow;
      row := ChangedRow(row, change);
      entries := entries[id := row];
      result := Ok(row);
    }

    /** The loop of `apply` that locks every target and compares its revision. */
    method CheckTargets(items: seq<Suggestion>, p: Prepared) returns (error: Option<Error>)
      ensures error == FirstTargetError(entries, items, |items|, p)
      ensures error.None? <==> TargetsCurrent(entries, items, |items|, p)
    {
      TargetCheckExact(entries, items, |items|, p);
      hide TargetsCurrent;
      for k := 0 to |items|
        invariant FirstTargetError(entries, items, k, p).None?
      {
        error := None;
        if items[k].target.Some? {
          var id := items[k].target.value;
          if !Owned(entries, p.owner, id) {
            error := Some(NotFound);
          } else if entries[id].undone || id !in p.revisions || entries[id].revision != p.revisions[id] {
            error := Some(Conflict);
          }
        }
        if error.Some? {
          TargetErrorStays(entries, items, k + 1, |items|, p);
          return;
        }
      }
      error := None;
    }

    /** One turn of the loop of `_persist`. */
    method PersistRow(p: Prepared, item: Suggestion, trade: Option<nat>, ghost ids: seq<nat>) returns (id: nat)
      requires PersistItem(Written(entries, next, ids), p, item, trade).Ok?
      modifies this`entries, this`next
      ensures PersistItem(old(Written(entries, next, ids)), p, item, trade) == Ok(Written(entries, next, ids + [id]))
    {
      hide Revised, Created;
      if item.target.Some? {
        id := item.target.value;
        entries := entries[id := Revised(entries[id], p, item, trade)];
      } else {
        id := next;
        entries := entries[id := Created(p, item, trade)];
        next := next + 1;
      }
    }

    /** `_persist`: rows are written one by one, then the source is recorded; it cannot fail once checked. */
    method PersistPlan(p: Prepared, items: seq<Suggestion>, trade: Option<nat>) returns (ids: seq<nat>)
      requires Fresh(entries, next)
      requires ValidPlan(items, |items|, p) && TargetsCurrent(entries, items, |items|, p)
      modifies this
      ensures var w := Persist(old(View()), p, items, |items|, trade);
              && w.Ok? && ids == w.value.ids
              && View() == Store(w.value.entries, old(sources) + [Source(p.owner, p.digest, ids)], w.value.next)
    {
      hide ValidPlan, TargetsCurrent, Fresh, Wrote, PersistItem;
      ghost var before := View();
      PersistExact(before, p, items, |items|, trade);
      ids := [];
      for k := 0 to |items|
        invariant Persist(before, p, items, k, trade) == Ok(Written(entries, next, ids))
        invariant sources == old(sources)
      {
        PersistPrefix(before, p, items, k + 1, |items|, trade);
        var id := PersistRow(p, items[k], trade, ids);
        ids := ids + [id];
      }
      sources := sources + [Source(p.owner, p.digest, ids)];
    }

    /** One of the two owner-scoped searches, which return entries that are not undone. */
    method ReadCandidates(owner: nat, found: seq<nat>) returns (revisions: map<nat, nat>)
      requires forall i :: 0 <= i < |found| ==> Owned(entries, owner, found[i]) && !entries[found[i]].undone
      ensures forall id :: id in revisions <==> id in found
      ensures forall p: Prepared :: p.owner == owner && p.revisions == revisions ==> PreparedIn(View(), p)
    {
      revisions := map id | id in found :: entries[id].revision;
    }

    /** The first query of `prepare`: a source captured before is answered at once, and cannot fail. */
    method FindPrior(owner: nat, digest: nat) returns (prior: Option<Result<Reply>>)
      requires Inv(View())
      ensures prior.Some? <==>
              exists i :: 0 <= i < |sources| && sources[i].owner == owner && sources[i].digest == digest
      ensures prior.Some? ==> prior.value.Ok?
    {
      FindSourceExact(sources, owner, digest);
      hide Fresh, RowsInv, FindSource, NotUndone;
      var source := FindSource(sources, owner, digest);
      if source.None? {
        return None;
      }
      var i :| 0 <= i < |sources| && sources[i] == source.value;
      return Some(PriorReply(entries, source.value));
    }

    /** `apply`: one transaction. */
    method ApplyPlan(p: Prepared, plan: Plan, trade: Option<nat>) returns (reply: Result<Reply>)
      requires Inv(View())
      modifies this
      ensures Inv(View()) && Evolves(old(View()), View())
      ensures Applied(View(), reply) == Apply(old(View()), p, plan, trade)
      ensures reply.Err? ==> View() == old(View())
    {
      CaptureKeeps(View(), p, plan, trade);
      hide Persist, FirstError, FirstTargetError, ValidPlan, TargetsCurrent, Unsure, FindSource, PriorReply;
      hide RowsInv, SourcesInv, Evolves, Fresh;
      var prior := FindSource(sources, p.owner, p.digest);
      if prior.Some? {
        return PriorReply(entries, prior.value);
      }
      if Unsure(plan) {
        return Ok(Reply([], Clarification, if Given(plan.clarification) then plan.clarification else Some(WHICH)));
      }
      if plan.entries == [] {
        return Ok(Reply([], NotNeeded, None));
      }
      var invalid := Validate(plan.entries, p);
      if invalid.Some? {
        return Err(invalid.value);
      }
      var changed := CheckTargets(plan.entries, p);
      if changed.Some? {
        return Err(changed.value);
      }
      var ids := PersistPlan(p, plan.entries, trade);
      reply := Ok(Reply(ids, Saved, None));
    }
  }
}
