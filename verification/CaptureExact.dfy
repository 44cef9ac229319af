/** The texts, conditions and replies of the capture service, written out. */
module CaptureExact {
  import opened Options
  import opened Utf8
  import opened Capture
  import opened CaptureTheorems
  import opened CaptureProvenance

  // --- joined text

  /** Where part `k` begins when the parts are separated. */
  function PartStart(parts: seq<string>, separator: string, k: nat): nat
    requires k <= |parts|
  {
    if k == 0 then 0 else PartStart(parts, separator, k - 1) + |parts[k - 1]| + |separator|
  }

  /** The text is the parts in order, one separator between neighbours, and nothing else. */
  ghost predicate Joined(text: string, parts: seq<string>, separator: string) {
    && (if parts == [] then text == "" else |text| + |separator| == PartStart(parts, separator, |parts|))
    && (forall k :: 0 <= k < |parts| ==> StandsAt(text, PartStart(parts, separator, k), parts[k]))
    && (forall k :: 0 < k < |parts| ==>
          PartStart(parts, separator, k) >= |separator| &&
          StandsAt(text, PartStart(parts, separator, k) - |separator|, separator))
  }

  lemma {:induction false} PartStartTail(parts: seq<string>, separator: string, k: nat)
    requires k < |parts|
    ensures PartStart(parts, separator, k + 1) ==
            |parts[0]| + |separator| + PartStart(parts[1..], separator, k)
    decreases k
  {
    if k > 0 {
      PartStartTail(parts, separator, k - 1);
    }
  }

  lemma {:induction false} StandsLater(front: string, text: string, i: nat, part: string)
    requires StandsAt(text, i, part)
    ensures StandsAt(front + text, |front| + i, part)
  {
    assert (front + text)[|front| + i..|front| + i + |part|] == text[i..i + |part|];
  }

  lemma {:induction false} JoinExact(parts: seq<string>, separator: string)
    ensures Joined(Join(parts, separator), parts, separator)
  {
    if |parts| == 1 {
      assert PartStart(parts, separator, 1) == |parts[0]| + |separator|;
    } else if |parts| > 1 {
      JoinExact(parts[1..], separator);
      JoinedMore(parts, separator);
    }
  }

  lemma {:induction false} JoinedMore(parts: seq<string>, separator: string)
    requires |parts| > 1 && Joined(Join(parts[1..], separator), parts[1..], separator)
    ensures Joined(Join(parts, separator), parts, separator)
  {
    var text, tail := Join(parts, separator), Join(parts[1..], separator);
    assert text == parts[0] + separator + tail;
    PartStartTail(parts, separator, |parts| - 1);
    hide Join;
    forall k | 0 <= k < |parts| ensures StandsAt(text, PartStart(parts, separator, k), parts[k]) {
      PartMoves(parts, separator, tail, k);
    }
    forall k | 0 < k < |parts|
      ensures PartStart(parts, separator, k) >= |separator|
      ensures StandsAt(text, PartStart(parts, separator, k) - |separator|, separator)
    {
      SeparatorMoves(parts, separator, tail, k);
    }
    hide StandsAt;
  }

  lemma {:induction false} PartMoves(parts: seq<string>, separator: string, tail: string, k: nat)
    requires |parts| > 1 && k < |parts| && Joined(tail, parts[1..], separator)
    ensures StandsAt(parts[0] + separator + tail, PartStart(parts, separator, k), parts[k])
  {
    hide StandsAt, PartStart;
    if k == 0 {
      FirstStart(parts, separator);
      StandsFirst(parts[0], separator, tail);
    } else {
      PartStartTail(parts, separator, k - 1);
      var i := PartStart(parts[1..], separator, k - 1);
      assert StandsAt(tail, i, parts[1..][k - 1]);
      hide Joined;
      StandsLater(parts[0] + separator, tail, i, parts[k]);
    }
  }

  lemma {:induction false} SeparatorMoves(parts: seq<string>, separator: string, tail: string, k: nat)
    requires |parts| > 1 && 0 < k < |parts| && Joined(tail, parts[1..], separator)
    ensures PartStart(parts, separator, k) >= |separator|
    ensures StandsAt(parts[0] + separator + tail, PartStart(parts, separator, k) - |separator|, separator)
  {
    hide StandsAt, PartStart;
    PartStartTail(parts, separator, k - 1);
    if k == 1 {
      FirstStart(parts[1..], separator);
      StandsSecond(parts[0], separator, tail);
    } else {
      var i := PartStart(parts[1..], separator, k - 1);
      assert i >= |separator| && StandsAt(tail, i - |separator|, separator);
      hide Joined;
      StandsLater(parts[0] + separator, tail, i - |separator|, separator);
    }
  }

  lemma {:induction false} FirstStart(parts: seq<string>, separator: string)
    ensures PartStart(parts, separator, 0) == 0
  {
  }

  lemma {:induction false} StandsFirst(a: string, b: string, c: string)
    ensures StandsAt(a + b + c, 0, a)
  {
  }

  lemma {:induction false} StandsSecond(a: string, b: string, c: string)
    ensures StandsAt(a + b + c, |a|, b)
  {
  }

  // --- what a suggestion needs

  /** A quote occurs in a text: something before it and something after it. */
  ghost predicate Occurs(quote: string, text: string) {
    exists before: string, after: string :: text == before + quote + after
  }

  lemma {:induction false} ContainsExact(text: string, quote: string)
    ensures Contains(text, quote) <==> Occurs(quote, text)
  {
    if Contains(text, quote) {
      var i :| 0 <= i <= |text| && StandsAt(text, i, quote);
      assert text == text[..i] + quote + text[i + |quote|..];
    }
    if before: string, after: string :| text == before + quote + after {
      StandsSecond(before, quote, after);
    }
  }

  /** The same suggestion but for its confidence. */
  predicate SameSuggestion(a: Suggestion, b: Suggestion) {
    && a.category == b.category && a.title == b.title && a.summary == b.summary && a.quotes == b.quotes
    && a.tags == b.tags && a.target == b.target && a.draft == b.draft
  }

  /** Every quote has visible text and occurs in the text. */
  ghost predicate AllOccur(quotes: seq<string>, text: string) {
    forall q :: q in quotes ==> (exists i :: 0 <= i < |q| && !Space(q[i])) && Occurs(q, text)
  }

  ghost predicate SomeOccurs(quotes: seq<string>, text: string) {
    exists q :: q in quotes && Occurs(q, text)
  }

  /** Quotes from what the user wrote, some from the current contribution, a supplied target, a drafted strategy. */
  ghost predicate Grounded(s: Suggestion, p: Prepared) {
    && AllOccur(s.quotes, Allowed(p)) && SomeOccurs(s.quotes, p.current)
    && (s.target.Some? ==> s.target.value in p.revisions) && (s.category == "strategies" ==> s.draft.Some?)
  }

  lemma {:induction false} QuotedExact(s: Suggestion, text: string)
    ensures Quoted(s, text) <==> AllOccur(s.quotes, text)
  {
    forall i | 0 <= i < |s.quotes| ensures Contains(text, s.quotes[i]) <==> Occurs(s.quotes[i], text) {
      ContainsExact(text, s.quotes[i]);
    }
    hide Contains, Occurs;
  }

  lemma {:induction false} CitesExact(s: Suggestion, text: string)
    ensures Cites(s, text) <==> SomeOccurs(s.quotes, text)
  {
    forall i | 0 <= i < |s.quotes| ensures Contains(text, s.quotes[i]) <==> Occurs(s.quotes[i], text) {
      ContainsExact(text, s.quotes[i]);
    }
    hide Contains, Occurs;
    if Cites(s, text) {
      var i :| 0 <= i < |s.quotes| && Contains(text, s.quotes[i]);
      assert s.quotes[i] in s.quotes;
    }
  }

  /**
   * A plan is valid exactly when every suggestion is grounded, and no two are the same but for their confidence or
   * share a target.
   */
  lemma {:induction false} ValidPlanExact(entries: seq<Suggestion>, p: Prepared)
    ensures ValidPlan(entries, |entries|, p) <==>
            && (forall k :: 0 <= k < |entries| ==> Grounded(entries[k], p))
            && (forall j, k :: 0 <= j < k < |entries| ==> !SameSuggestion(entries[j], entries[k]))
            && (forall j, k :: 0 <= j < k < |entries| && entries[j].target.Some? ==>
                  entries[j].target != entries[k].target)
  {
    forall k | 0 <= k < |entries| ensures Supported(entries[k], p) <==> Grounded(entries[k], p) {
      SupportedExact(entries[k], p);
    }
    forall j, k | 0 <= j < k < |entries|
      ensures Fingerprint(entries[j]) != Fingerprint(entries[k]) <==> !SameSuggestion(entries[j], entries[k])
    {
      FingerprintExact(entries[j], entries[k]);
    }
    hide Fingerprint, SameSuggestion, Supported, Grounded;
  }

  lemma {:induction false} SupportedExact(s: Suggestion, p: Prepared)
    ensures Supported(s, p) <==> Grounded(s, p)
  {
    QuotedExact(s, Allowed(p));
    CitesExact(s, p.current);
    hide Quoted, Cites, AllOccur, SomeOccurs, Allowed;
  }

  /** A quote may come from the current contribution and the prior messages, a newline between neighbours. */
  lemma {:induction false} AllowedExact(p: Prepared)
    ensures Joined(Allowed(p), [p.current] + seq(|p.history|, i requires 0 <= i < |p.history| => p.history[i].content),
                   "\n")
  {
    JoinExact([p.current] + Contents(p.history), "\n");
    assert Contents(p.history) == seq(|p.history|, i requires 0 <= i < |p.history| => p.history[i].content);
    hide Joined, Join;
  }

  lemma {:induction false} FingerprintExact(a: Suggestion, b: Suggestion)
    ensures Fingerprint(a) == Fingerprint(b) <==> SameSuggestion(a, b)
  {
  }

  // --- what is written

  /** The kept messages of a list, oldest last in, oldest first out. */
  ghost predicate FromBack(cited: seq<Message>, history: seq<Message>, s: Suggestion) {
    exists at: seq<nat> ::
      && |at| == |cited| && (forall i :: 0 <= i < |at| ==> at[i] < |history| && history[at[i]] == cited[i])
      && (forall i, j :: 0 <= i < j < |at| ==> at[i] > at[j])
      && (forall i :: 0 <= i < |at| ==> SomeOccurs(s.quotes, cited[i].content))
      && (forall k :: 0 <= k < |history| && SomeOccurs(s.quotes, history[k].content) ==> Among(at, k))
  }

  /** The positions of the picked messages, from the back. */
  ghost predicate Picks(at: seq<nat>, cited: seq<Message>, history: seq<Message>, s: Suggestion) {
    && |at| == |cited| && (forall i :: 0 <= i < |at| ==> at[i] < |history| && history[at[i]] == cited[i])
    && (forall i, j :: 0 <= i < j < |at| ==> at[i] > at[j])
    && (forall i :: 0 <= i < |at| ==> Cites(s, cited[i].content))
    && (forall k :: 0 <= k < |history| && Cites(s, history[k].content) ==> Among(at, k))
  }

  predicate Among(at: seq<nat>, k: nat) {
    exists i :: 0 <= i < |at| && at[i] == k
  }

  /** The same positions one further on. */
  function Moved(at: seq<nat>): (moved: seq<nat>)
    ensures |moved| == |at| && forall i :: 0 <= i < |at| ==> moved[i] == at[i] + 1
  {
    seq(|at|, i requires 0 <= i < |at| => at[i] + 1)
  }

  lemma {:induction false} AmongMoved(at: seq<nat>, k: nat, more: seq<nat>)
    requires Among(at, k)
    ensures Among(Moved(at) + more, k + 1)
  {
    var i :| 0 <= i < |at| && at[i] == k;
    assert (Moved(at) + more)[i] == k + 1;
  }

  lemma {:induction false} CitedOrder(history: seq<Message>, s: Suggestion) returns (at: seq<nat>)
    ensures Picks(at, Cited(history, s), history, s)
  {
    hide Cites;
    if history == [] {
      at := [];
    } else {
      var rest := CitedOrder(history[1..], s);
      var more: seq<nat> := if Cites(s, history[0].content) then [0] else [];
      at := Moved(rest) + more;
      forall k | 0 <= k < |history| && Cites(s, history[k].content) ensures Among(at, k) {
        if k > 0 {
          assert history[1..][k - 1] == history[k];
          AmongMoved(rest, k - 1, more);
        } else {
          assert at[|rest|] == 0;
        }
      }
      hide Among, Moved;
      OrderKept(rest, more, Cited(history[1..], s), history, s);
    }
  }

  lemma {:induction false} OrderKept(
    rest: seq<nat>, more: seq<nat>, cited: seq<Message>, history: seq<Message>, s: Suggestion)
    requires history != [] && Picks(rest, cited, history[1..], s)
    requires more == if Cites(s, history[0].content) then [0] else []
    ensures var at, all := Moved(rest) + more, cited + (if more == [] then [] else [history[0]]);
            && |at| == |all| && (forall i :: 0 <= i < |at| ==> at[i] < |history| && history[at[i]] == all[i])
            && (forall i, j :: 0 <= i < j < |at| ==> at[i] > at[j])
            && (forall i :: 0 <= i < |at| ==> Cites(s, all[i].content))
  {
    hide Cites, Among;
  }

  /** The prior messages that hold a quote, in the reverse of the order they are listed in. */
  lemma {:induction false} CitedExactly(history: seq<Message>, s: Suggestion)
    ensures FromBack(Cited(history, s), history, s)
  {
    var at := CitedOrder(history, s);
    forall k | 0 <= k < |history|
      ensures Cites(s, history[k].content) <==> SomeOccurs(s.quotes, history[k].content)
    {
      CitesExact(s, history[k].content);
    }
    var cited := Cited(history, s);
    forall i | 0 <= i < |at| ensures SomeOccurs(s.quotes, cited[i].content) {
      assert history[at[i]] == cited[i];
    }
    hide Cites, SomeOccurs, Cited, Among;
  }

  /** The first twenty of the tags, old ones first, each once. */
  ghost predicate TagsOf(tags: seq<string>, all: seq<string>) {
    && |tags| <= 20 && NoRepeats(tags) && (forall t :: t in tags ==> t in all)
    && (|tags| < 20 ==> forall t :: t in all ==> t in tags)
  }

  lemma {:induction false} TagsExact(was: seq<string>, added: seq<string>)
    ensures TagsOf(UpTo(Distinct(was + added), 20), was + added)
    ensures NoRepeats(was) && |was| <= 20 ==> was <= UpTo(Distinct(was + added), 20)
  {
    DistinctExact(was + added);
    if NoRepeats(was) {
      DistinctKeepsFront(was, added);
      DistinctFixed(was);
    }
    hide Distinct;
  }

  /** What a suggestion writes in any case: its own category, title, summary and quotes, and where it comes from. */
  ghost predicate Carries(now: Content, p: Prepared, s: Suggestion, trade: Option<nat>) {
    && now.category == s.category && now.title == s.title && now.summary == s.summary && now.sources.quotes == s.quotes
    && (s.draft.Some? ==> now.draft == s.draft)
    && (p.document.Some? ==> now.sources.document == p.document) && (trade.Some? ==> now.sources.trade == trade)
  }

  /** What the user contributed: the cited messages and the current one, a blank line between them. */
  ghost predicate Contributes(text: string, p: Prepared, s: Suggestion) {
    exists cited: seq<Message> ::
      && FromBack(cited, p.history, s)
      && Joined(text, seq(|cited|, i requires 0 <= i < |cited| => cited[i].content) + [p.current], "\n\n")
  }

  lemma {:induction false} ContributionExact(p: Prepared, s: Suggestion)
    ensures Contributes(Contribution(p, s), p, s)
  {
    var cited := Cited(p.history, s);
    CitedExactly(p.history, s);
    JoinExact(Contents(cited) + [p.current], "\n\n");
    assert Contents(cited) == seq(|cited|, i requires 0 <= i < |cited| => cited[i].content);
    hide Joined, FromBack, Cited, Join;
  }

  /** A new entry: the suggestion's own content, at revision one, with no history. */
  lemma {:induction false} CreatedExact(p: Prepared, s: Suggestion, trade: Option<nat>)
    ensures var row := Created(p, s, trade);
            && row.owner == p.owner && !row.undone && row.revision == 1 && row.history == []
            && Carries(row.content, p, s, trade) && row.content.draft == s.draft
            && Contributes(row.content.text, p, s)
            && row.content.sources.document == p.document && row.content.sources.trade == trade
            && TagsOf(row.content.sources.tags, s.tags)
  {
    hide Contribution, Contributes, Distinct, TagsOf, Cited, UpTo, Ids;
    ContributionExact(p, s);
    TagsExact([], s.tags);
    assert [] + s.tags == s.tags;
  }

  /** A revised entry: the same, on top of what it had; what the suggestion does not give stays. */
  lemma {:induction false} RevisedExact(row: Row, p: Prepared, s: Suggestion, trade: Option<nat>)
    ensures var now := Revised(row, p, s, trade);
            && now.owner == row.owner && now.undone == row.undone && now.revision == row.revision + 1
            && now.history == row.history + [Snapshot(row.content, row.undone)]
            && Carries(now.content, p, s, trade)
            && (s.draft.None? ==> now.content.draft == row.content.draft)
            && (p.document.None? ==> now.content.sources.document == row.content.sources.document)
            && (trade.None? ==> now.content.sources.trade == row.content.sources.trade)
            && TagsOf(now.content.sources.tags, row.content.sources.tags + s.tags)
            && (exists text :: Contributes(text, p, s) && now.content.text == row.content.text + "\n\n" + text)
  {
    hide Contribution, Contributes, Distinct, TagsOf, Cited, UpTo, Ids;
    ContributionExact(p, s);
    TagsExact(row.content.sources.tags, s.tags);
  }

  // --- update

  /** When a correction or undo is refused, and when it changes nothing. */
  lemma {:induction false} UpdateIff(s: Store, owner: nat, id: nat, change: Change)
    ensures var r := Update(s, owner, id, change);
            if id !in s.entries || s.entries[id].owner != owner then r == Err(NotFound)
            else
              var row := s.entries[id];
              var given := (change.category.Some? && change.category.value != "")
                           || (change.title.Some? && change.title.value != "")
                           || (change.summary.Some? && change.summary.value != "");
              && (r == Err(Conflict) <==> row.revision != change.expected)
              && (r == Err(UndoWithCorrection) <==>
                    row.revision == change.expected && !row.undone && change.undo && given)
              && (r.Err? ==> r.error == Conflict || r.error == UndoWithCorrection)
              && (r.Ok? ==>
                    && r.value.sources == s.sources && r.value.next == s.next && r.value.entries.Keys == s.entries.Keys
                    && (forall i :: i in s.entries && i != id ==> r.value.entries[i] == s.entries[i])
                    && (row.undone ==> r.value.entries[id] == row)
                    && (!row.undone && change.undo && row.history == [] ==>
                          r.value.entries[id] == row.(undone := true, revision := row.revision + 1))
                    && (!row.undone && change.undo && row.history != [] ==>
                          var n := |row.history| - 1;
                          r.value.entries[id] ==
                          Row(row.owner, row.history[n].content, row.history[n].undone, row.revision + 1,
                              row.history[..n]))
                    && (!row.undone && !change.undo ==>
                          && r.value.entries[id].history == row.history + [Snapshot(row.content, row.undone)]
                          && !r.value.entries[id].undone && r.value.entries[id].revision == row.revision + 1))
  {
  }

  // --- apply

  /** The identifiers whose entries still stand, in order. */
  ghost predicate Standing(live: seq<nat>, entries: map<nat, Row>, ids: seq<nat>) {
    exists at: seq<nat> ::
      && |at| == |live| && (forall i :: 0 <= i < |at| ==> at[i] < |ids| && ids[at[i]] == live[i])
      && (forall i, j :: 0 <= i < j < |at| ==> at[i] < at[j])
      && (forall k :: 0 <= k < |ids| ==> (k in at <==> ids[k] in entries && !entries[ids[k]].undone))
  }

  lemma {:induction false} StandingAt(entries: map<nat, Row>, ids: seq<nat>) returns (at: seq<nat>)
    ensures |at| == |NotUndone(entries, ids)|
    ensures forall i :: 0 <= i < |at| ==> at[i] < |ids| && ids[at[i]] == NotUndone(entries, ids)[i]
    ensures forall i, j :: 0 <= i < j < |at| ==> at[i] < at[j]
    ensures forall k :: 0 <= k < |ids| ==> (k in at <==> ids[k] in entries && !entries[ids[k]].undone)
  {
    if ids == [] {
      at := [];
    } else {
      var n := |ids| - 1;
      var front := StandingAt(entries, ids[..n]);
      var keeps := ids[n] in entries && !entries[ids[n]].undone;
      at := front + (if keeps then [n] else []);
      forall k | 0 <= k < |ids| ensures k in at <==> ids[k] in entries && !entries[ids[k]].undone {
        if k < n {
          assert ids[..n][k] == ids[k];
          assert k in at <==> k in front;
        } else {
          assert n !in front;
        }
      }
    }
  }

  lemma {:induction false} NotUndoneExact(entries: map<nat, Row>, ids: seq<nat>)
    ensures Standing(NotUndone(entries, ids), entries, ids)
  {
    var at := StandingAt(entries, ids);
    hide NotUndone;
  }

  /**
   * Every answer of `apply`: a known source with its standing entries, a request for clarification when the planner
   * asks or is less than 0.8 sure of anything, nothing to save, the first error, or the written entries.
   */
  lemma {:induction false} ApplyReply(s: Store, p: Prepared, plan: Plan, trade: Option<nat>)
    ensures var r := Apply(s, p, plan, trade).reply;
            var known := exists source :: source in s.sources && source.owner == p.owner && source.digest == p.digest;
            var asks := plan.clarification.Some? && plan.clarification.value != "";
            var unsure := exists e :: e in plan.entries && e.confidence < 0.8;
            if known then
              exists source :: source in s.sources && source.owner == p.owner && source.digest == p.digest
                && (r.Err? ==> r.error == NotFound)
                && (r.Ok? ==>
                      && Standing(r.value.entries, s.entries, source.entries) && r.value.message == None
                      && r.value.status == (if r.value.entries == [] then NotNeeded else Saved))
            else if asks || unsure then
              r == Ok(Reply([], Clarification,
                            if asks then plan.clarification else Some("Which destination fits this contribution?")))
            else if plan.entries == [] then r == Ok(Reply([], NotNeeded, None))
            else if FirstError(plan.entries, |plan.entries|, p).Some? then
              r == Err(FirstError(plan.entries, |plan.entries|, p).value)
            else if FirstTargetError(s.entries, plan.entries, |plan.entries|, p).Some? then
              r == Err(FirstTargetError(s.entries, plan.entries, |plan.entries|, p).value)
            else r.Ok? ==> r.value.status == Saved && r.value.message == None && |r.value.entries| == |plan.entries|
  {
    FindSourceExact(s.sources, p.owner, p.digest);
    UnsureExact(plan);
    if FindSource(s.sources, p.owner, p.digest).Some? {
      NotUndoneExact(s.entries, FindSource(s.sources, p.owner, p.digest).value.entries);
    } else {
      PersistCount(s, p, plan.entries, |plan.entries|, trade);
    }
    hide FindSource, FirstError, FirstTargetError, Persist, Standing, NotUndone, AllOwned, Unsure;
  }

  lemma {:induction false} UnsureExact(plan: Plan)
    ensures Unsure(plan) <==> (plan.clarification.Some? && plan.clarification.value != "")
                              || exists e :: e in plan.entries && e.confidence < 0.8
  {
    if e :| e in plan.entries && e.confidence < 0.8 {
      var i :| 0 <= i < |plan.entries| && plan.entries[i] == e;
    }
    if i :| 0 <= i < |plan.entries| && plan.entries[i].confidence < 0.8 {
      assert plan.entries[i] in plan.entries;
    }
  }

  lemma {:induction false} PersistCount(s: Store, p: Prepared, items: seq<Suggestion>, n: nat, trade: Option<nat>)
    requires n <= |items|
    ensures Persist(s, p, items, n, trade).Ok? ==> |Persist(s, p, items, n, trade).value.ids| == n
  {
    hide Created, Revised;
    if n > 0 {
      PersistCount(s, p, items, n - 1, trade);
    }
  }

  /** What the check under lock reports of a target that was supplied. */
  lemma {:induction false} TargetErrorExact(entries: map<nat, Row>, s: Suggestion, p: Prepared)
    requires s.target.Some? ==> s.target.value in p.revisions
    ensures TargetError(entries, s, p) ==
            match s.target
            case None => None
            case Some(id) =>
              if id !in entries || entries[id].owner != p.owner then Some(NotFound)
              else if entries[id].undone || entries[id].revision != p.revisions[id] then Some(Conflict)
              else None
  {
  }

  /** A suggestion like this one, or with its target, came earlier in the plan. */
  ghost predicate SeenSame(entries: seq<Suggestion>, k: nat)
    requires k < |entries|
  {
    exists j :: 0 <= j < k && SameSuggestion(entries[j], entries[k])
  }

  ghost predicate SeenTarget(entries: seq<Suggestion>, k: nat)
    requires k < |entries|
  {
    entries[k].target.Some? && exists j :: 0 <= j < k && entries[j].target == entries[k].target
  }

  /** The error of a suggestion is the first fault it has, in the order of the checks. */
  lemma {:induction false} SuggestionErrorExact(entries: seq<Suggestion>, k: nat, p: Prepared)
    requires k < |entries|
    ensures var s, e := entries[k], SuggestionError(entries, k, p);
            e == (if SeenSame(entries, k) then Some(DuplicateSuggestion)
                  else if SeenTarget(entries, k) then Some(DuplicateTarget)
                  else if !AllOccur(s.quotes, Allowed(p)) then Some(QuoteNotInSource)
                  else if !SomeOccurs(s.quotes, p.current) then Some(CurrentNotSupported)
                  else if s.target.Some? && s.target.value !in p.revisions then Some(TargetNotSupplied)
                  else if s.category == "strategies" && s.draft.None? then Some(DraftRequired)
                  else None)
  {
    QuotedExact(entries[k], Allowed(p));
    CitesExact(entries[k], p.current);
    forall j | 0 <= j < k
      ensures Fingerprint(entries[j]) == Fingerprint(entries[k]) <==> SameSuggestion(entries[j], entries[k])
    {
      FingerprintExact(entries[j], entries[k]);
    }
    hide Quoted, Cites, AllOccur, SomeOccurs, Fingerprint, SameSuggestion, Allowed;
  }
}
