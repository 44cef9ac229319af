/** Whole runs of edits and captures, by any number of owners, interleaved in any order. */
module CaptureRuns {
  import opened Options
  import opened Capture
  import opened CaptureTheorems

  // --- one capture

  lemma {:induction false} ItemKeeps(entries: map<nat, Row>, p: Prepared, item: Suggestion, trade: Option<nat>)
    requires RowsInv(entries) && TargetError(entries, item, p).None?
    ensures var row := RowFor(entries, p, item, trade);
            && RowInv(row) && row.owner == p.owner
            && (item.target.Some? ==> entries[item.target.value].owner == p.owner &&
                                      Moves(entries[item.target.value], row))
  {
    if item.target.Some? {
      RevisionRefinesStack(entries[item.target.value], p, item, trade);
    }
  }

  lemma {:induction false} WrittenKeeps(
    s: Store, w: Written, p: Prepared, items: seq<Suggestion>, trade: Option<nat>)
    requires RowsInv(s.entries) && TargetsCurrent(s.entries, items, |items|, p)
    requires Fresh(s.entries, s.next) && Wrote(s, w, p, items, |items|, trade)
    ensures RowsInv(w.entries) && AllOwned(w.entries, p.owner, w.ids)
    ensures forall id :: id in s.entries ==>
              && id in w.entries && Moves(s.entries[id], w.entries[id])
              && (s.entries[id].owner != p.owner ==> w.entries[id] == s.entries[id])
  {
    forall k | 0 <= k < |items|
      ensures var id := w.ids[k];
              && id in w.entries && RowInv(w.entries[id]) && w.entries[id].owner == p.owner
              && (id in s.entries ==> s.entries[id].owner == p.owner && Moves(s.entries[id], w.entries[id]))
    {
      assert WroteItem(s, w, p, items[k], w.ids[k], trade) && TargetError(s.entries, items[k], p).None?;
      ItemKeeps(s.entries, p, items[k], trade);
      hide RowFor, Moves, RowInv;
    }
    hide RowInv, RowFor;
    forall id | id in s.entries && id in w.ids
      ensures s.entries[id].owner == p.owner && Moves(s.entries[id], w.entries[id])
    {
      var k :| 0 <= k < |w.ids| && w.ids[k] == id;
    }
    forall id | id in w.entries ensures RowInv(w.entries[id]) {
      if id in w.ids {
        var k :| 0 <= k < |w.ids| && w.ids[k] == id;
      }
    }
  }

  lemma {:induction false} SourceAdded(entries: map<nat, Row>, sources: seq<Source>, added: Source)
    requires SourcesInv(entries, sources) && AllOwned(entries, added.owner, added.entries)
    requires FindSource(sources, added.owner, added.digest).None?
    ensures SourcesInv(entries, sources + [added])
  {
    FindSourceExact(sources, added.owner, added.digest);
    hide AllOwned;
  }

  lemma {:induction false} MovesKeepsOwner(row: Row, after: Row)
    requires Moves(row, after)
    ensures after.owner == row.owner && after.revision >= row.revision
    ensures after.revision == row.revision <==> after == row
    ensures after != row ==> after.revision == row.revision + 1
    ensures row.undone ==> after == row
  {
  }

  lemma {:induction false} CaptureKeeps(s: Store, p: Prepared, plan: Plan, trade: Option<nat>)
    requires Inv(s)
    ensures var t := Apply(s, p, plan, trade).store; Inv(t) && Evolves(s, t)
    ensures var t := Apply(s, p, plan, trade).store;
            forall id :: id in s.entries && s.entries[id].owner != p.owner ==> t.entries[id] == s.entries[id]
  {
    ApplyAllOrNothing(s, p, plan, trade);
    hide Apply, Persist, RowInv, Moves, AllOwned, FindSource, ValidPlan, Unsure, TargetsCurrent;
    var t := Apply(s, p, plan, trade).store;
    if Writes(s, p, plan) {
      var w := Persist(s, p, plan.entries, |plan.entries|, trade).value;
      WrittenKeeps(s, w, p, plan.entries, trade);
      forall id | id in s.entries ensures t.entries[id].owner == s.entries[id].owner {
        MovesKeepsOwner(s.entries[id], t.entries[id]);
      }
      hide Wrote;
      OwnersKept(s, t);
      SourceAdded(t.entries, s.sources, Source(p.owner, p.digest, w.ids));
    } else {
      assert forall id :: id in s.entries ==> Moves(s.entries[id], s.entries[id]) by {
        StaysMoves(s);
      }
    }
  }

  lemma {:induction false} StaysMoves(s: Store)
    ensures forall id :: id in s.entries ==> Moves(s.entries[id], s.entries[id])
  {
  }

  // --- runs

  lemma {:induction false} StepKeeps(s: Store, a: Action)
    requires Inv(s)
    ensures Inv(Next(s, a)) && Evolves(s, Next(s, a))
  {
    hide Inv, Update, Apply;
    match a
    case Edit(owner, id, change) =>
      if Update(s, owner, id, change).Ok? {
        EditKeeps(s, owner, id, change);
      } else {
        StaysMoves(s);
      }
    case Capture(p, plan, trade) => CaptureKeeps(s, p, plan, trade);
  }

  /** No step touches an entry of another owner. */
  lemma {:induction false} OwnersIsolated(s: Store, a: Action, id: nat)
    requires Inv(s) && id in s.entries
    requires s.entries[id].owner != (if a.Edit? then a.owner else a.prepared.owner)
    ensures id in Next(s, a).entries && Next(s, a).entries[id] == s.entries[id]
  {
    StepKeeps(s, a);
    hide Inv, Update, Apply;
    match a
    case Edit(owner, i, change) =>
      if Update(s, owner, i, change).Ok? {
        EditKeeps(s, owner, i, change);
      }
    case Capture(p, plan, trade) => CaptureKeeps(s, p, plan, trade);
  }

  /**
   * In every state of every run: each entry is a version stack, recorded captures name entries of their owner,
   * and no owner has two recorded captures of one digest.
   */
  lemma {:induction false} RunKeeps(states: seq<Store>, actions: seq<Action>, k: nat)
    requires Run(states, actions) && Inv(states[0]) && k < |states|
    ensures Inv(states[k])
  {
    hide Inv, Next;
    if k > 0 {
      RunKeeps(states, actions, k - 1);
      assert states[k - 1 + 1] == Next(states[k - 1], actions[k - 1]);
      StepKeeps(states[k - 1], actions[k - 1]);
    }
  }

  lemma {:induction false} EmptyKeeps()
    ensures Inv(EMPTY)
  {
  }

  /** How many steps between two points of a run changed an entry. */
  ghost function Changes(states: seq<Store>, id: nat, i: nat, j: nat): nat
    requires i <= j < |states|
    requires forall k :: i <= k <= j ==> id in states[k].entries
    decreases j - i
  {
    if i == j then 0
    else Changes(states, id, i, j - 1) + if states[j - 1].entries[id] == states[j].entries[id] then 0 else 1
  }

  ghost predicate Persists(states: seq<Store>, id: nat, i: nat, j: nat)
    requires j < |states|
  {
    forall k :: i <= k <= j ==> id in states[k].entries
  }

  /** The row is the same in every state between the two points. */
  ghost predicate Untouched(states: seq<Store>, id: nat, i: nat, j: nat)
    requires i <= j < |states|
  {
    forall k :: i <= k <= j ==> id in states[k].entries && id in states[i].entries &&
                                states[k].entries[id] == states[i].entries[id]
  }

  /** The revision counts the changes, so an equal revision means the row was never touched in between. */
  lemma {:induction false} RevisionCountsChanges(states: seq<Store>, actions: seq<Action>, id: nat, i: nat, j: nat)
    requires Run(states, actions) && Inv(states[0]) && i <= j < |states| && id in states[i].entries
    ensures Persists(states, id, i, j)
    ensures states[j].entries[id].revision == states[i].entries[id].revision + Changes(states, id, i, j)
    ensures states[j].entries[id].revision == states[i].entries[id].revision <==> Untouched(states, id, i, j)
    ensures states[j].entries[id].owner == states[i].entries[id].owner
    decreases j - i
  {
    hide Inv, Next, Moves;
    if i < j {
      RevisionCountsChanges(states, actions, id, i, j - 1);
      RunKeeps(states, actions, j - 1);
      assert states[j - 1 + 1] == Next(states[j - 1], actions[j - 1]);
      StepKeeps(states[j - 1], actions[j - 1]);
      MovesKeepsOwner(states[j - 1].entries[id], states[j].entries[id]);
      assert Untouched(states, id, i, j) ==> Untouched(states, id, i, j - 1);
    }
  }

  /** Each candidate's revision was read in some state of the run, not necessarily all in the same one. */
  ghost predicate ReadIn(states: seq<Store>, readAt: map<nat, nat>, j: nat, p: Prepared)
    requires j < |states|
  {
    forall id :: id in p.revisions ==>
      && id in readAt && readAt[id] <= j && Owned(states[readAt[id]].entries, p.owner, id)
      && !states[readAt[id]].entries[id].undone && states[readAt[id]].entries[id].revision == p.revisions[id]
  }

  /** The revisions two queries returned, the later one winning, as the source's dictionary does. */
  function MergedReads(recent: map<nat, nat>, relevant: map<nat, nat>): map<nat, nat> {
    map id | id in recent.Keys + relevant.Keys :: if id in relevant then relevant[id] else recent[id]
  }

  /** Two queries that ran in two states of a run are a reading of their merged result. */
  lemma {:induction false} QueriesRead(
    states: seq<Store>, i: nat, k: nat, j: nat, recent: map<nat, nat>, relevant: map<nat, nat>, p: Prepared)
    requires i <= j < |states| && k <= j && p.revisions == MergedReads(recent, relevant)
    requires PreparedIn(states[i], p.(revisions := recent)) && PreparedIn(states[k], p.(revisions := relevant))
    ensures ReadIn(states, map id | id in p.revisions :: if id in relevant then k else i, j, p)
  {
  }

  /** Every entry the plan revises is as it was when its revision was read. */
  ghost predicate TargetsUntouched(states: seq<Store>, readAt: map<nat, nat>, j: nat, items: seq<Suggestion>)
    requires j < |states|
  {
    forall k :: 0 <= k < |items| ==> ItemUntouched(states, readAt, j, items[k])
  }

  ghost predicate ItemUntouched(states: seq<Store>, readAt: map<nat, nat>, j: nat, item: Suggestion)
    requires j < |states|
  {
    item.target.Some? ==>
      var id := item.target.value;
      id in readAt && readAt[id] <= j && Untouched(states, id, readAt[id], j)
  }

  lemma {:induction false} TargetUntouched(
    states: seq<Store>, actions: seq<Action>, readAt: map<nat, nat>, j: nat, p: Prepared, item: Suggestion)
    requires Run(states, actions) && Inv(states[0]) && j < |states| && ReadIn(states, readAt, j, p)
    requires item.target.Some? ==> item.target.value in p.revisions
    ensures TargetError(states[j].entries, item, p).None? <==> ItemUntouched(states, readAt, j, item)
  {
    if item.target.Some? {
      var id := item.target.value;
      RevisionCountsChanges(states, actions, id, readAt[id], j);
      hide Run, Inv;
    }
  }

  /**
   * A capture whose candidates were read in earlier states of a run and which is applied in a later one writes if
   * and only if its source is new, its plan is sure and valid, and no step since its reading touched any entry it
   * revises -- even one that was edited and undone back to the same content. Otherwise it writes nothing.
   */
  lemma {:induction false} RevisesOnlyUntouched(
    states: seq<Store>, actions: seq<Action>, readAt: map<nat, nat>, j: nat, p: Prepared, plan: Plan,
    trade: Option<nat>)
    requires Run(states, actions) && Inv(states[0]) && j < |states| && ReadIn(states, readAt, j, p)
    ensures Apply(states[j], p, plan, trade).store != states[j] <==>
            && FindSource(states[j].sources, p.owner, p.digest).None? && !Unsure(plan) && plan.entries != []
            && ValidPlan(plan.entries, |plan.entries|, p) && TargetsUntouched(states, readAt, j, plan.entries)
  {
    RunKeeps(states, actions, j);
    ApplyAllOrNothing(states[j], p, plan, trade);
    if ValidPlan(plan.entries, |plan.entries|, p) {
      forall k | 0 <= k < |plan.entries|
        ensures TargetError(states[j].entries, plan.entries[k], p).None? <==>
                ItemUntouched(states, readAt, j, plan.entries[k])
      {
        assert Supported(plan.entries[k], p);
        hide ValidPlan;
        TargetUntouched(states, actions, readAt, j, p, plan.entries[k]);
      }
    }
    hide Apply, Persist, Wrote, ValidPlan, Unsure, FindSource, Run, Inv, TargetError, ItemUntouched, ReadIn;
  }

  /** A capture that writes raises the revision of each entry it revises by exactly one and no other's. */
  lemma {:induction false} TargetsBumpedOnce(s: Store, p: Prepared, plan: Plan, trade: Option<nat>, id: nat)
    requires Inv(s) && Writes(s, p, plan) && id in s.entries
    ensures var t := Apply(s, p, plan, trade).store;
            && id in t.entries
            && t.entries[id].revision == s.entries[id].revision +
               (if exists k :: 0 <= k < |plan.entries| && plan.entries[k].target == Some(id) then 1 else 0)
  {
    ApplyAllOrNothing(s, p, plan, trade);
    var w := Persist(s, p, plan.entries, |plan.entries|, trade).value;
    hide Apply, Persist, FindSource, ValidPlan, Unsure, TargetsCurrent, Created, RowsInv, SourcesInv;
    if k :| 0 <= k < |plan.entries| && plan.entries[k].target == Some(id) {
      assert WroteItem(s, w, p, plan.entries[k], w.ids[k], trade);
    } else if id in w.ids {
      var k :| 0 <= k < |w.ids| && w.ids[k] == id;
      assert WroteItem(s, w, p, plan.entries[k], w.ids[k], trade);
    }
  }

  lemma {:induction false} SourcesGrow(states: seq<Store>, actions: seq<Action>, i: nat, j: nat)
    requires Run(states, actions) && Inv(states[0]) && i <= j < |states|
    ensures states[i].sources <= states[j].sources
    decreases j - i
  {
    hide Inv, Next, Moves;
    if i < j {
      SourcesGrow(states, actions, i, j - 1);
      RunKeeps(states, actions, j - 1);
      assert states[j - 1 + 1] == Next(states[j - 1], actions[j - 1]);
      StepKeeps(states[j - 1], actions[j - 1]);
    }
  }

  /** Of any number of racing captures of one source, one writes; the others answer with its entries. */
  lemma {:induction false} CapturedOnce(
    states: seq<Store>, actions: seq<Action>, i: nat, j: nat, source: Source, p: Prepared, plan: Plan,
    trade: Option<nat>)
    requires Run(states, actions) && Inv(states[0]) && i <= j < |states| && source in states[i].sources
    requires p.owner == source.owner && p.digest == source.digest
    ensures var r := Apply(states[j], p, plan, trade);
            && r.store == states[j] && AllOwned(states[j].entries, source.owner, source.entries)
            && r.reply.Ok? && r.reply.value.entries == NotUndone(states[j].entries, source.entries)
            && r.reply.value.status == (if r.reply.value.entries == [] then NotNeeded else Saved)
  {
    SourcesGrow(states, actions, i, j);
    RunKeeps(states, actions, j);
    var sources := states[j].sources;
    assert source in sources;
    FindSourceExact(sources, p.owner, p.digest);
    hide FindSource, Run, NotUndone, AllOwned, Fresh, RowsInv;
    var found := FindSource(sources, p.owner, p.digest);
    var a :| 0 <= a < |sources| && sources[a] == source;
    assert found.Some?;
    var b :| 0 <= b < |sources| && sources[b] == found.value;
    assert a == b;
  }

  /** An undone entry is never changed again, by anyone. */
  lemma {:induction false} UndoneForever(states: seq<Store>, actions: seq<Action>, id: nat, i: nat, j: nat)
    requires Run(states, actions) && Inv(states[0]) && i <= j < |states| && id in states[i].entries
    requires states[i].entries[id].undone
    ensures id in states[j].entries && states[j].entries[id] == states[i].entries[id]
    decreases j - i
  {
    hide Inv, Next, Moves;
    if i < j {
      UndoneForever(states, actions, id, i, j - 1);
      RunKeeps(states, actions, j - 1);
      assert states[j - 1 + 1] == Next(states[j - 1], actions[j - 1]);
      StepKeeps(states[j - 1], actions[j - 1]);
      MovesKeepsOwner(states[j - 1].entries[id], states[j].entries[id]);
    }
  }
}
