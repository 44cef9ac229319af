/** What every run of edits and captures keeps, and when a capture may revise an entry. */
module CaptureTheorems {
  import opened Options
  import opened Capture

  // --- an entry is a stack of versions

  datatype Versions = Live(stack: seq<Content>) | Gone(last: Content)

  function HistoryContents(history: seq<Snapshot>): seq<Content> {
    seq(|history|, i requires 0 <= i < |history| => history[i].content)
  }

  function VersionsOf(row: Row): Versions {
    if row.undone then Gone(row.content) else Live(HistoryContents(row.history) + [row.content])
  }

  function Push(v: Versions, c: Content): Versions {
    if v.Live? then Live(v.stack + [c]) else v
  }

  /** Undo: back to the version before, or gone when there is none. */
  function Pop(v: Versions): Versions {
    if v.Gone? || v.stack == [] then v
    else if |v.stack| == 1 then Gone(v.stack[0])
    else Live(v.stack[..|v.stack| - 1])
  }

  /** No snapshot is undone, and an undone entry has no history left. */
  ghost predicate RowInv(row: Row) {
    && row.revision > |row.history|
    && (row.undone ==> row.history == [])
    && forall i :: 0 <= i < |row.history| ==> !row.history[i].undone
  }

  /** The same row, or one push or pop with the revision raised by one. */
  ghost predicate Moves(row: Row, after: Row) {
    || after == row
    || (&& after.owner == row.owner && after.revision == row.revision + 1 && !row.undone
        && (VersionsOf(after) == Pop(VersionsOf(row)) ||
            VersionsOf(after) == Push(VersionsOf(row), after.content)))
  }

  lemma {:induction false} UpdateRefinesStack(row: Row, change: Change)
    requires RowInv(row) && UpdateRow(row, change).Ok?
    ensures var after := UpdateRow(row, change).value;
            && RowInv(after) && Moves(row, after)
            && VersionsOf(after) == (if row.undone then VersionsOf(row)
                                     else if change.undo then Pop(VersionsOf(row))
                                     else Push(VersionsOf(row), Corrected(row.content, change)))
            && after.revision == (if row.undone then row.revision else row.revision + 1)
  {
    var after := UpdateRow(row, change).value;
    if row.undone {
    } else if change.undo && row.history != [] {
      var n := |row.history| - 1;
      assert HistoryContents(after.history) + [after.content] == HistoryContents(row.history);
      assert (HistoryContents(row.history) + [row.content])[..n + 1] == HistoryContents(row.history);
    } else if !change.undo {
      assert HistoryContents(after.history) == HistoryContents(row.history) + [row.content];
    }
  }

  lemma {:induction false} RevisionRefinesStack(row: Row, p: Prepared, s: Suggestion, trade: Option<nat>)
    requires RowInv(row) && !row.undone
    ensures var after := Revised(row, p, s, trade);
            RowInv(after) && Moves(row, after) && VersionsOf(after) == Push(VersionsOf(row), after.content)
  {
    var after := Revised(row, p, s, trade);
    assert HistoryContents(after.history) == HistoryContents(row.history) + [row.content];
  }

  // --- undo takes back every kind of change

  datatype Edit = Correction(change: Change) | Captured(p: Prepared, s: Suggestion, trade: Option<nat>)

  function UndoOf(row: Row): Change {
    Change(row.revision, None, None, None, true)
  }

  /** A correction at the current revision, or a capture that targets the entry. */
  function Edited(row: Row, e: Edit): Row {
    match e
    case Correction(change) =>
      var r := UpdateRow(row, change.(expected := row.revision, undo := false));
      if r.Ok? then r.value else row
    case Captured(p, s, trade) => Revised(row, p, s, trade)
  }

  function EditedAll(row: Row, edits: seq<Edit>): Row
    decreases |edits|
  {
    if edits == [] then row else EditedAll(Edited(row, edits[0]), edits[1..])
  }

  function Undone(row: Row, n: nat): Row
    decreases n
  {
    if n == 0 then row
    else
      var r := UpdateRow(row, UndoOf(row));
      if r.Ok? then Undone(r.value, n - 1) else row
  }

  lemma {:induction false} UndoInvertsEdit(row: Row, e: Edit)
    requires !row.undone
    ensures !Edited(row, e).undone
    ensures Undone(Edited(row, e), 1) == row.(revision := row.revision + 2)
  {
    var after := Edited(row, e);
    assert after.history == row.history + [SnapshotOf(row)];
    assert after.history[..|after.history| - 1] == row.history;
    var r := UpdateRow(after, UndoOf(after));
    assert Undone(after, 1) == Undone(r.value, 0);
  }

  lemma {:induction false} UndoneSplit(row: Row, n: nat)
    ensures Undone(row, n + 1) == Undone(Undone(row, n), 1)
    decreases n
  {
    hide UpdateRow;
    if n > 0 {
      var r := UpdateRow(row, UndoOf(row));
      if r.Ok? {
        UndoneSplit(r.value, n - 1);
      }
    } else {
      assert Undone(row, 0) == row;
    }
  }

  lemma {:induction false} RevisionShift(row: Row, n: nat, k: nat)
    ensures Undone(row.(revision := row.revision + k), n) ==
            (var r := Undone(row, n); r.(revision := r.revision + k))
    decreases n
  {
    if n > 0 {
      var shifted := row.(revision := row.revision + k);
      var r := UpdateRow(row, UndoOf(row));
      assert UpdateRow(shifted, UndoOf(shifted)) == Ok(r.value.(revision := r.value.revision + k));
      RevisionShift(r.value, n - 1, k);
    }
  }

  /** Any number of corrections and captures, undone as often, restore content and history exactly. */
  lemma {:induction false} UndoInvertsEdits(row: Row, edits: seq<Edit>)
    requires !row.undone
    ensures Undone(EditedAll(row, edits), |edits|) == row.(revision := row.revision + 2 * |edits|)
    decreases |edits|
  {
    if edits != [] {
      var first, n := Edited(row, edits[0]), |edits| - 1;
      UndoInvertsEdit(row, edits[0]);
      UndoInvertsEdits(first, edits[1..]);
      UndoneSplit(EditedAll(first, edits[1..]), n);
      RevisionShift(first, 1, 2 * n);
      hide Undone, Edited;
    } else {
      assert Undone(row, 0) == row;
    }
  }

  // --- validation and the check under lock, as conditions on the whole plan

  ghost predicate Supported(s: Suggestion, p: Prepared) {
    && Quoted(s, Allowed(p)) && Cites(s, p.current)
    && (s.target.Some? ==> s.target.value in p.revisions)
    && (s.category == "strategies" ==> s.draft.Some?)
  }

  /** The first `n` suggestions are supported, and no two are the same or share a target. */
  ghost predicate ValidPlan(entries: seq<Suggestion>, n: nat, p: Prepared)
    requires n <= |entries|
  {
    && (forall k :: 0 <= k < n ==> Supported(entries[k], p))
    && (forall j, k :: 0 <= j < k < n ==> Fingerprint(entries[j]) != Fingerprint(entries[k]))
    && (forall j, k :: 0 <= j < k < n && entries[k].target.Some? ==> entries[j].target != entries[k].target)
  }

  lemma {:induction false} ValidationExact(entries: seq<Suggestion>, n: nat, p: Prepared)
    requires n <= |entries|
    ensures FirstError(entries, n, p).None? <==> ValidPlan(entries, n, p)
  {
    hide Quoted, Cites, Allowed;
    if n > 0 {
      ValidationExact(entries, n - 1, p);
    }
  }

  ghost predicate TargetsCurrent(entries: map<nat, Row>, items: seq<Suggestion>, n: nat, p: Prepared)
    requires n <= |items|
  {
    forall k :: 0 <= k < n ==> TargetError(entries, items[k], p).None?
  }

  lemma {:induction false} TargetCheckExact(entries: map<nat, Row>, items: seq<Suggestion>, n: nat, p: Prepared)
    requires n <= |items|
    ensures FirstTargetError(entries, items, n, p).None? <==> TargetsCurrent(entries, items, n, p)
  {
    hide TargetError;
    if n > 0 {
      TargetCheckExact(entries, items, n - 1, p);
    }
  }

  // --- what a capture writes

  /** Every identifier in use is below the next fresh one. */
  ghost predicate Fresh(entries: map<nat, Row>, next: nat) {
    forall id :: id in entries ==> id < next
  }

  /** The row a suggestion leaves behind. */
  function RowFor(entries: map<nat, Row>, p: Prepared, s: Suggestion, trade: Option<nat>): Row {
    if s.target.Some? && s.target.value in entries then Revised(entries[s.target.value], p, s, trade)
    else Created(p, s, trade)
  }

  /** Each suggestion wrote its own row, once, and nothing else changed. */
  ghost predicate Wrote(s: Store, w: Written, p: Prepared, items: seq<Suggestion>, n: nat, trade: Option<nat>)
    requires n <= |items|
  {
    && |w.ids| == n && Fresh(w.entries, w.next) && s.next <= w.next
    && (forall k :: 0 <= k < n ==> WroteItem(s, w, p, items[k], w.ids[k], trade))
    && (forall j, k :: 0 <= j < k < n ==> w.ids[j] != w.ids[k])
    && (forall id :: id in s.entries ==> id in w.entries)
    && (forall id :: id in w.entries && id !in w.ids ==> id in s.entries && w.entries[id] == s.entries[id])
  }

  ghost predicate WroteItem(s: Store, w: Written, p: Prepared, item: Suggestion, id: nat, trade: Option<nat>) {
    && id in w.entries && w.entries[id] == RowFor(s.entries, p, item, trade)
    && (if item.target.Some? then id == item.target.value && id in s.entries else s.next <= id)
  }

  /** Putting one more suggestion's row under an identifier not yet written. */
  lemma {:induction false} WroteOneMore(
    s: Store, w: Written, v: Written, p: Prepared, items: seq<Suggestion>, n: nat, trade: Option<nat>, id: nat)
    requires n < |items| && Wrote(s, w, p, items, n, trade) && id !in w.ids
    requires v.ids == w.ids + [id] && v.entries == w.entries[id := RowFor(s.entries, p, items[n], trade)]
    requires w.next <= v.next && id < v.next
    requires if items[n].target.Some? then id == items[n].target.value && id in s.entries else s.next <= id
    ensures Wrote(s, v, p, items, n + 1, trade)
  {
    hide RowFor;
    forall k | 0 <= k < n ensures WroteItem(s, v, p, items[k], v.ids[k], trade) {
      assert WroteItem(s, w, p, items[k], w.ids[k], trade);
      assert v.ids[k] == w.ids[k] && w.ids[k] in w.ids;
    }
    assert WroteItem(s, v, p, items[n], v.ids[n], trade);
    hide WroteItem;
    forall i | i in v.entries && i !in v.ids ensures i in s.entries && v.entries[i] == s.entries[i] {
      assert i != id by {
        assert v.ids[n] == id;
      }
      assert i !in w.ids;
    }
    forall j, k | 0 <= j < k < n + 1 ensures v.ids[j] != v.ids[k] {
      assert v.ids[j] == w.ids[j] && w.ids[j] in w.ids;
    }
  }

  lemma {:induction false} NotYetWritten(
    s: Store, w: Written, p: Prepared, items: seq<Suggestion>, n: nat, trade: Option<nat>)
    requires n < |items| && Fresh(s.entries, s.next) && Wrote(s, w, p, items, n, trade)
    requires forall j :: 0 <= j < n && items[n].target.Some? ==> items[j].target != items[n].target
    ensures w.next !in w.ids
    ensures items[n].target.Some? && items[n].target.value in s.entries ==> items[n].target.value !in w.ids
  {
    hide RowFor;
    forall k | 0 <= k < n
      ensures w.ids[k] != w.next
      ensures items[n].target.Some? && items[n].target.value in s.entries ==> w.ids[k] != items[n].target.value
    {
      assert WroteItem(s, w, p, items[k], w.ids[k], trade);
    }
  }

  lemma {:induction false} PersistStep(
    s: Store, w: Written, p: Prepared, items: seq<Suggestion>, n: nat, trade: Option<nat>)
    requires n < |items| && Fresh(s.entries, s.next) && Wrote(s, w, p, items, n, trade)
    requires TargetError(s.entries, items[n], p).None?
    requires forall j :: 0 <= j < n && items[n].target.Some? ==> items[j].target != items[n].target
    ensures PersistItem(w, p, items[n], trade).Ok?
    ensures Wrote(s, PersistItem(w, p, items[n], trade).value, p, items, n + 1, trade)
  {
    NotYetWritten(s, w, p, items, n, trade);
    if items[n].target.Some? {
      var id := items[n].target.value;
      assert id in s.entries && id in w.entries && w.entries[id] == s.entries[id] && id < w.next;
    }
    var id := if items[n].target.Some? then items[n].target.value else w.next;
    var v := PersistItem(w, p, items[n], trade).value;
    hide Wrote, Revised, Created, Fresh;
    WroteOneMore(s, w, v, p, items, n, trade, id);
  }

  lemma {:induction false} PlanPrefix(entries: map<nat, Row>, p: Prepared, items: seq<Suggestion>, n: nat)
    requires n < |items| && ValidPlan(items, n + 1, p) && TargetsCurrent(entries, items, n + 1, p)
    ensures ValidPlan(items, n, p) && TargetsCurrent(entries, items, n, p)
    ensures TargetError(entries, items[n], p).None?
    ensures forall j :: 0 <= j < n && items[n].target.Some? ==> items[j].target != items[n].target
  {
    hide TargetError, Supported;
  }

  lemma {:induction false} WroteNothing(s: Store, p: Prepared, items: seq<Suggestion>, trade: Option<nat>)
    requires Fresh(s.entries, s.next)
    ensures Wrote(s, Written(s.entries, s.next, []), p, items, 0, trade)
  {
  }

  lemma {:induction false} PersistExact(s: Store, p: Prepared, items: seq<Suggestion>, n: nat, trade: Option<nat>)
    requires n <= |items| && Fresh(s.entries, s.next)
    requires ValidPlan(items, n, p) && TargetsCurrent(s.entries, items, n, p)
    ensures Persist(s, p, items, n, trade).Ok?
    ensures Wrote(s, Persist(s, p, items, n, trade).value, p, items, n, trade)
  {
    hide ValidPlan, TargetsCurrent, Wrote, Fresh, TargetError, PersistItem;
    if n > 0 {
      PlanPrefix(s.entries, p, items, n - 1);
      PersistExact(s, p, items, n - 1, trade);
      PersistStep(s, Persist(s, p, items, n - 1, trade).value, p, items, n - 1, trade);
    } else {
      WroteNothing(s, p, items, trade);
    }
  }

  // --- what every step keeps

  ghost predicate RowsInv(entries: map<nat, Row>) {
    forall id :: id in entries ==> RowInv(entries[id])
  }

  /** Recorded captures name entries of their own owner, and no owner has two for one digest. */
  ghost predicate SourcesInv(entries: map<nat, Row>, sources: seq<Source>) {
    && (forall i :: 0 <= i < |sources| ==> AllOwned(entries, sources[i].owner, sources[i].entries))
    && (forall i, j :: 0 <= i < j < |sources| ==>
          sources[i].owner != sources[j].owner || sources[i].digest != sources[j].digest)
  }

  ghost predicate Inv(s: Store) {
    Fresh(s.entries, s.next) && RowsInv(s.entries) && SourcesInv(s.entries, s.sources)
  }

  /** Every entry persists, moving by at most one version, and recorded captures persist. */
  ghost predicate Evolves(s: Store, t: Store) {
    && (forall id :: id in s.entries ==> id in t.entries && Moves(s.entries[id], t.entries[id]))
    && s.sources <= t.sources
  }

  lemma {:induction false} OwnersKept(s: Store, t: Store)
    requires forall id :: id in s.entries ==> id in t.entries && t.entries[id].owner == s.entries[id].owner
    requires SourcesInv(s.entries, s.sources)
    ensures SourcesInv(t.entries, s.sources)
  {
    forall i | 0 <= i < |s.sources| ensures AllOwned(t.entries, s.sources[i].owner, s.sources[i].entries) {
      assert AllOwned(s.entries, s.sources[i].owner, s.sources[i].entries);
    }
  }

  lemma {:induction false} EditKeeps(s: Store, owner: nat, id: nat, change: Change)
    requires Inv(s) && Update(s, owner, id, change).Ok?
    ensures var t := Update(s, owner, id, change).value; Inv(t) && Evolves(s, t)
    ensures var t := Update(s, owner, id, change).value;
            forall i :: i in s.entries && (i != id || s.entries[i].owner != owner) ==> t.entries[i] == s.entries[i]
  {
    var t := Update(s, owner, id, change).value;
    UpdateRefinesStack(s.entries[id], change);
    hide RowInv, UpdateRow, VersionsOf, Push, Pop;
    OwnersKept(s, t);
  }

  /** The search returns nothing exactly when no recorded capture has this owner and digest. */
  lemma {:induction false} FindSourceExact(sources: seq<Source>, owner: nat, digest: nat)
    ensures var r := FindSource(sources, owner, digest);
            if r.Some? then r.value in sources && r.value.owner == owner && r.value.digest == digest
            else forall i :: 0 <= i < |sources| ==> sources[i].owner != owner || sources[i].digest != digest
  {
    if sources != [] {
      FindSourceExact(sources[1..], owner, digest);
      assert forall i :: 1 <= i < |sources| ==> sources[i] == sources[1..][i - 1];
    }
  }

  /** When the transaction writes: a new source, a sure and valid plan, and every target as it was prepared. */
  ghost predicate Writes(s: Store, p: Prepared, plan: Plan) {
    && FindSource(s.sources, p.owner, p.digest).None? && !Unsure(plan) && plan.entries != []
    && ValidPlan(plan.entries, |plan.entries|, p) && TargetsCurrent(s.entries, plan.entries, |plan.entries|, p)
  }

  /** All or nothing: every suggestion is written once and the source recorded, or the store is as it was. */
  lemma {:induction false} ApplyAllOrNothing(s: Store, p: Prepared, plan: Plan, trade: Option<nat>)
    requires Fresh(s.entries, s.next)
    ensures var t := Apply(s, p, plan, trade).store;
            var w := Persist(s, p, plan.entries, |plan.entries|, trade);
            if Writes(s, p, plan) then
              && w.Ok? && Wrote(s, w.value, p, plan.entries, |plan.entries|, trade)
              && t == Store(w.value.entries, s.sources + [Source(p.owner, p.digest, w.value.ids)], w.value.next)
              && Apply(s, p, plan, trade).reply == Ok(Reply(w.value.ids, Saved, None))
            else t == s
  {
    ValidationExact(plan.entries, |plan.entries|, p);
    TargetCheckExact(s.entries, plan.entries, |plan.entries|, p);
    hide Persist, ValidPlan, TargetsCurrent, Wrote, Fresh, FirstError, FirstTargetError, Unsure, FindSource, PriorReply;
    if Writes(s, p, plan) {
      PersistExact(s, p, plan.entries, |plan.entries|, trade);
    }
  }
}
