/** What a capture keeps of an entry's sources and text, and what a correction may touch. */
module CaptureProvenance {
  import opened Options
  import opened Capture
  import opened CaptureTheorems
  import opened CaptureRuns

  /** First occurrences only: the same elements, none twice, and what was already distinct stays in front. */
  lemma {:induction false} DistinctExact<T>(items: seq<T>)
    ensures forall x :: x in Distinct(items) <==> x in items
    ensures forall i, j :: 0 <= i < j < |Distinct(items)| ==> Distinct(items)[i] != Distinct(items)[j]
  {
    if items != [] {
      DistinctExact(items[..|items| - 1]);
      assert items == items[..|items| - 1] + [items[|items| - 1]];
    }
  }

  lemma {:induction false} DistinctKeepsFront<T>(items: seq<T>, more: seq<T>)
    ensures Distinct(items) <= Distinct(items + more)
    decreases |more|
  {
    if more == [] {
      assert items + more == items;
    } else {
      DistinctKeepsFront(items, more[..|more| - 1]);
      assert (items + more)[..|items + more| - 1] == items + more[..|more| - 1];
    }
  }

  lemma {:induction false} DistinctFixed<T>(items: seq<T>)
    requires forall i, j :: 0 <= i < j < |items| ==> items[i] != items[j]
    ensures Distinct(items) == items
  {
    if items != [] {
      DistinctFixed(items[..|items| - 1]);
    }
  }

  /** Exactly the prior messages that hold one of the quotes. */
  lemma {:induction false} CitedExact(history: seq<Message>, s: Suggestion)
    ensures forall m :: m in Cited(history, s) <==> m in history && Cites(s, m.content)
  {
    hide Cites;
    if history != [] {
      CitedExact(history[1..], s);
      assert history == [history[0]] + history[1..];
    }
  }

  ghost predicate NoRepeats<T(!new)>(items: seq<T>) {
    forall i, j :: 0 <= i < j < |items| ==> items[i] != items[j]
  }

  /** Elements added to a list without repetition. */
  lemma {:induction false} DistinctAdds<T(!new)>(earlier: seq<T>, more: seq<T>, last: T)
    ensures var all := Distinct(earlier + more + [last]);
            && NoRepeats(all) && (NoRepeats(earlier) ==> earlier <= all)
            && (forall x :: x in all <==> x in earlier || x in more || x == last)
  {
    DistinctExact(earlier + more + [last]);
    DistinctKeepsFront(earlier, more + [last]);
    assert earlier + (more + [last]) == earlier + more + [last];
    if NoRepeats(earlier) {
      DistinctFixed(earlier);
    }
  }

  lemma {:induction false} IdsExact(messages: seq<Message>)
    ensures forall m :: m in messages ==> m.id in Ids(messages)
    ensures forall i :: i in Ids(messages) ==> exists m :: m in messages && m.id == i
  {
    forall m | m in messages ensures m.id in Ids(messages) {
      var i :| 0 <= i < |messages| && messages[i] == m;
      assert Ids(messages)[i] == m.id;
    }
    forall i | i in Ids(messages) ensures exists m :: m in messages && m.id == i {
      var k :| 0 <= k < |Ids(messages)| && Ids(messages)[k] == i;
      assert messages[k] in messages;
    }
  }

  /**
   * A capture revision keeps the whole text and every source message of the entry, and adds the current message
   * and every prior message it quotes, each once and nothing else.
   */
  lemma {:induction false} ProvenanceKept(row: Row, p: Prepared, s: Suggestion, trade: Option<nat>)
    ensures row.content.text <= Revised(row, p, s, trade).content.text
    ensures var was, now := row.content.sources.messages, Revised(row, p, s, trade).content.sources.messages;
            && NoRepeats(now) && (NoRepeats(was) ==> was <= now)
            && forall i :: i in now <==>
                 i in was || i == p.message || exists m :: m in p.history && Cites(s, m.content) && m.id == i
  {
    var cited := Cited(p.history, s);
    hide Distinct, Cited, Cites, Contribution, Ids, NoRepeats;
    CitedExact(p.history, s);
    IdsExact(cited);
    DistinctAdds(row.content.sources.messages, Ids(cited), p.message);
  }

  /** A correction reaches the given fields among category, title and summary; text, sources and draft stay. */
  lemma {:induction false} CorrectionIsLocal(row: Row, change: Change)
    requires UpdateRow(row, change).Ok? && !change.undo
    ensures var was, now := row.content, UpdateRow(row, change).value.content;
            && now.text == was.text && now.sources == was.sources && now.draft == was.draft
            && (row.undone || change.title.None? ==> now.title == was.title)
            && (row.undone || change.summary.None? ==> now.summary == was.summary)
            && (row.undone || change.category.None? ==> now.category == was.category)
            && (!row.undone && change.title.Some? ==> now.title == change.title.value)
            && (!row.undone && change.summary.Some? ==> now.summary == change.summary.value)
            && (!row.undone && change.category.Some? ==> now.category == change.category.value)
  {
  }

  // --- over runs

  /** The action is an undo of this entry. */
  predicate Undoes(a: Action, id: nat) {
    a.Edit? && a.id == id && a.change.undo
  }

  /** The action is a capture that revises this entry. */
  predicate Revises(a: Action, id: nat) {
    a.Capture? && exists k :: 0 <= k < |a.plan.entries| && a.plan.entries[k].target == Some(id)
  }

  /** Nothing the user wrote is lost: the text is extended and every source message stays. */
  ghost predicate Extends(was: Content, now: Content) {
    was.text <= now.text && forall i :: i in was.sources.messages ==> i in now.sources.messages
  }

  ghost predicate SameProvenance(was: Content, now: Content) {
    now.text == was.text && now.sources == was.sources && now.draft == was.draft
  }

  lemma {:induction false} EditProvenance(s: Store, a: Action, id: nat)
    requires a.Edit? && id in s.entries && !Undoes(a, id)
    ensures id in Next(s, a).entries && SameProvenance(s.entries[id].content, Next(s, a).entries[id].content)
  {
    if Update(s, a.owner, a.id, a.change).Ok? && a.id == id {
      CorrectionIsLocal(s.entries[id], a.change);
    }
    hide UpdateRow;
  }

  lemma {:induction false} CaptureProvenanceStep(s: Store, a: Action, id: nat)
    requires Inv(s) && a.Capture? && id in s.entries
    ensures id in Next(s, a).entries
    ensures Extends(s.entries[id].content, Next(s, a).entries[id].content)
    ensures !Revises(a, id) ==> Next(s, a).entries[id] == s.entries[id]
  {
    var items := a.plan.entries;
    ApplyAllOrNothing(s, a.prepared, a.plan, a.trade);
    hide Apply, Persist, Revised, Created, FindSource, ValidPlan, Unsure, TargetsCurrent, RowsInv, SourcesInv;
    if Writes(s, a.prepared, a.plan) {
      var w := Persist(s, a.prepared, items, |items|, a.trade).value;
      if id in w.ids {
        var k :| 0 <= k < |w.ids| && w.ids[k] == id;
        assert WroteItem(s, w, a.prepared, items[k], w.ids[k], a.trade);
        assert items[k].target == Some(id);
        ProvenanceKept(s.entries[id], a.prepared, items[k], a.trade);
      }
    }
  }

  /** One step loses no text and no source unless it undoes; without a capture it changes neither. */
  lemma {:induction false} StepProvenance(s: Store, a: Action, id: nat)
    requires Inv(s) && id in s.entries && !Undoes(a, id)
    ensures id in Next(s, a).entries && Extends(s.entries[id].content, Next(s, a).entries[id].content)
    ensures !Revises(a, id) ==> SameProvenance(s.entries[id].content, Next(s, a).entries[id].content)
  {
    hide Inv, Next;
    if a.Edit? {
      EditProvenance(s, a, id);
    } else {
      CaptureProvenanceStep(s, a, id);
    }
  }

  /**
   * Over any stretch of a run without an undo of the entry, its text is only extended and no source message is
   * lost; and if no capture revised it either, text, sources and draft are what they were, however it was corrected.
   */
  lemma {:induction false} ProvenanceOverRuns(states: seq<Store>, actions: seq<Action>, id: nat, i: nat, j: nat)
    requires Run(states, actions) && Inv(states[0]) && i <= j < |states| && id in states[i].entries
    requires forall k :: i <= k < j ==> !Undoes(actions[k], id)
    ensures id in states[j].entries && Extends(states[i].entries[id].content, states[j].entries[id].content)
    ensures (forall k :: i <= k < j ==> !Revises(actions[k], id)) ==>
              SameProvenance(states[i].entries[id].content, states[j].entries[id].content)
    decreases j - i
  {
    hide Inv, Next, Revises, Undoes;
    if i < j {
      ProvenanceOverRuns(states, actions, id, i, j - 1);
      RunKeeps(states, actions, j - 1);
      assert states[j - 1 + 1] == Next(states[j - 1], actions[j - 1]);
      StepProvenance(states[j - 1], actions[j - 1], id);
    }
  }
}
