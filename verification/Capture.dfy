/**
 * Saved notes and the capture protocol (backend/src/app/agent_capture/store.py and service.py): a note is
 * corrected, undone or revised by a capture; a capture prepares from a snapshot, waits for a planner, and
 * applies the plan in one transaction.
 */
module Capture {
  import opened Options
  import opened Utf8

  // --- entries

  datatype Sources = Sources(
    messages: seq<nat>, tags: seq<string>, quotes: seq<string>, document: Option<nat>, trade: Option<nat>)

  datatype Content = Content(
    category: string, title: string, summary: string, text: string, sources: Sources, draft: Option<string>)

  datatype Snapshot = Snapshot(content: Content, undone: bool)

  datatype Row = Row(owner: nat, content: Content, undone: bool, revision: nat, history: seq<Snapshot>)

  datatype Error =
    | NotFound | Conflict | UndoWithCorrection | DuplicateSuggestion | DuplicateTarget | QuoteNotInSource
    | CurrentNotSupported | TargetNotSupplied | DraftRequired | UndoneTarget

  datatype Result<T> = Ok(value: T) | Err(error: Error)

  function SnapshotOf(row: Row): Snapshot {
    Snapshot(row.content, row.undone)
  }

  // --- `update_entry`

  datatype Change = Change(
    expected: int, category: Option<string>, title: Option<string>, summary: Option<string>, undo: bool)

  predicate Given(field: Option<string>) {
    field.Some? && field.value != ""
  }

  predicate Corrects(change: Change) {
    Given(change.category) || Given(change.title) || Given(change.summary)
  }

  function Or(field: Option<string>, current: string): string {
    if field.Some? then field.value else current
  }

  function Corrected(content: Content, change: Change): Content {
    content.(category := Or(change.category, content.category), title := Or(change.title, content.title),
             summary := Or(change.summary, content.summary))
  }

  function UpdateRow(row: Row, change: Change): Result<Row> {
    if row.revision != change.expected then Err(Conflict)
    else if row.undone then Ok(row)
    else if change.undo && Corrects(change) then Err(UndoWithCorrection)
    else if change.undo && row.history != [] then
      var n := |row.history| - 1;
      Ok(row.(content := row.history[n].content, undone := row.history[n].undone, history := row.history[..n],
              revision := row.revision + 1))
    else if change.undo then Ok(row.(undone := true, revision := row.revision + 1))
    else
      Ok(row.(history := row.history + [SnapshotOf(row)], content := Corrected(row.content, change),
              revision := row.revision + 1))
  }

  // --- the store

  /** A recorded capture: the owner and digest of its source, and the entries it wrote. */
  datatype Source = Source(owner: nat, digest: nat, entries: seq<nat>)

  /** Entries by identifier; `next` is the supply of fresh identifiers. */
  datatype Store = Store(entries: map<nat, Row>, sources: seq<Source>, next: nat)

  const EMPTY := Store(map[], [], 0)

  /** `require_entry`: the entry exists and belongs to the caller. */
  predicate Owned(entries: map<nat, Row>, owner: nat, id: nat) {
    id in entries && entries[id].owner == owner
  }

  function Update(s: Store, owner: nat, id: nat, change: Change): Result<Store> {
    if !Owned(s.entries, owner, id) then Err(NotFound)
    else
      var row := UpdateRow(s.entries[id], change);
      if row.Err? then Err(row.error) else Ok(s.(entries := s.entries[id := row.value]))
  }

  // --- plans

  datatype Message = Message(id: nat, content: string)

  datatype Suggestion = Suggestion(
    category: string, title: string, summary: string, quotes: seq<string>, tags: seq<string>, confidence: real,
    target: Option<nat>, draft: Option<string>)

  datatype Plan = Plan(entries: seq<Suggestion>, clarification: Option<string>)

  /** What `prepare` hands to the planner and back to `apply`. */
  datatype Prepared = Prepared(
    owner: nat, message: nat, document: Option<nat>, current: string, digest: nat, history: seq<Message>,
    revisions: map<nat, nat>)

  predicate Contains(text: string, quote: string) {
    exists i | 0 <= i <= |text| :: StandsAt(text, i, quote)
  }

  predicate StandsAt(text: string, i: nat, quote: string) {
    i + |quote| <= |text| && text[i..i + |quote|] == quote
  }

  function Join(parts: seq<string>, separator: string): string {
    if parts == [] then "" else if |parts| == 1 then parts[0]
    else parts[0] + separator + Join(parts[1..], separator)
  }

  function Contents(messages: seq<Message>): seq<string> {
    seq(|messages|, i requires 0 <= i < |messages| => messages[i].content)
  }

  function Fingerprint(s: Suggestion): Suggestion {
    s.(confidence := 0.0)
  }

  predicate Quoted(s: Suggestion, text: string) {
    forall i :: 0 <= i < |s.quotes| ==> !Blank(s.quotes[i]) && Contains(text, s.quotes[i])
  }

  predicate Cites(s: Suggestion, text: string) {
    exists i :: 0 <= i < |s.quotes| && Contains(text, s.quotes[i])
  }

  function Allowed(p: Prepared): string {
    Join([p.current] + Contents(p.history), "\n")
  }

  /** What `_validate` raises at one suggestion of the plan. */
  function SuggestionError(entries: seq<Suggestion>, k: nat, p: Prepared): Option<Error>
    requires k < |entries|
  {
    var s := entries[k];
    if exists j | 0 <= j < k :: Fingerprint(entries[j]) == Fingerprint(s) then Some(DuplicateSuggestion)
    else if s.target.Some? && (exists j | 0 <= j < k :: entries[j].target == s.target) then Some(DuplicateTarget)
    else if !Quoted(s, Allowed(p)) then Some(QuoteNotInSource)
    else if !Cites(s, p.current) then Some(CurrentNotSupported)
    else if s.target.Some? && s.target.value !in p.revisions then Some(TargetNotSupplied)
    else if s.category == "strategies" && s.draft.None? then Some(DraftRequired)
    else None
  }

  /** The first error of the plan's first `n` suggestions. */
  function FirstError(entries: seq<Suggestion>, n: nat, p: Prepared): Option<Error>
    requires n <= |entries|
  {
    if n == 0 then None
    else
      var earlier := FirstError(entries, n - 1, p);
      if earlier.Some? then earlier else SuggestionError(entries, n - 1, p)
  }

  /** The check under lock: a target is refused unless it still has the revision it was prepared at. */
  function TargetError(entries: map<nat, Row>, s: Suggestion, p: Prepared): Option<Error> {
    if s.target.None? then None
    else if !Owned(entries, p.owner, s.target.value) then Some(NotFound)
    else if entries[s.target.value].undone then Some(Conflict)
    else if s.target.value !in p.revisions || entries[s.target.value].revision != p.revisions[s.target.value] then
      Some(Conflict)
    else None
  }

  function FirstTargetError(entries: map<nat, Row>, items: seq<Suggestion>, n: nat, p: Prepared): Option<Error>
    requires n <= |items|
  {
    if n == 0 then None
    else
      var earlier := FirstTargetError(entries, items, n - 1, p);
      if earlier.Some? then earlier else TargetError(entries, items[n - 1], p)
  }

  // --- `_persist`

  /** The prior messages a suggestion quotes, oldest first. */
  function Cited(history: seq<Message>, s: Suggestion): seq<Message> {
    if history == [] then []
    else Cited(history[1..], s) + (if Cites(s, history[0].content) then [history[0]] else [])
  }

  function Ids(messages: seq<Message>): seq<nat> {
    seq(|messages|, i requires 0 <= i < |messages| => messages[i].id)
  }

  /** First occurrences, in order. */
  function Distinct<T(==)>(items: seq<T>): seq<T> {
    if items == [] then []
    else
      var front, last := Distinct(items[..|items| - 1]), items[|items| - 1];
      if last in front then front else front + [last]
  }

  function UpTo<T>(items: seq<T>, n: nat): seq<T> {
    if |items| <= n then items else items[..n]
  }

  function Contribution(p: Prepared, s: Suggestion): string {
    Join(Contents(Cited(p.history, s)) + [p.current], "\n\n")
  }

  function Merged(was: Sources, p: Prepared, s: Suggestion, trade: Option<nat>): Sources {
    Sources(
      Distinct(was.messages + Ids(Cited(p.history, s)) + [p.message]), UpTo(Distinct(was.tags + s.tags), 20),
      s.quotes, if p.document.Some? then p.document else was.document, if trade.Some? then trade else was.trade)
  }

  const NO_SOURCES := Sources([], [], [], None, None)

  function Created(p: Prepared, s: Suggestion, trade: Option<nat>): Row {
    Row(p.owner, Content(s.category, s.title, s.summary, Contribution(p, s), Merged(NO_SOURCES, p, s, trade), s.draft),
        false, 1, [])
  }

  function Revised(row: Row, p: Prepared, s: Suggestion, trade: Option<nat>): Row {
    row.(history := row.history + [SnapshotOf(row)], revision := row.revision + 1,
         content := Content(s.category, s.title, s.summary, row.content.text + "\n\n" + Contribution(p, s),
                            Merged(row.content.sources, p, s, trade),
                            if s.draft.Some? then s.draft else row.content.draft))
  }

  /** Entries after some suggestions are written, with the identifiers of their rows. */
  datatype Written = Written(entries: map<nat, Row>, next: nat, ids: seq<nat>)

  function PersistItem(w: Written, p: Prepared, s: Suggestion, trade: Option<nat>): Result<Written> {
    if s.target.None? then
      Ok(Written(w.entries[w.next := Created(p, s, trade)], w.next + 1, w.ids + [w.next]))
    else
      var id := s.target.value;
      if !Owned(w.entries, p.owner, id) then Err(NotFound)
      else if w.entries[id].undone then Err(UndoneTarget)
      else Ok(Written(w.entries[id := Revised(w.entries[id], p, s, trade)], w.next, w.ids + [id]))
  }

  function Persist(s: Store, p: Prepared, items: seq<Suggestion>, n: nat, trade: Option<nat>): Result<Written>
    requires n <= |items|
  {
    if n == 0 then Ok(Written(s.entries, s.next, []))
    else
      var w := Persist(s, p, items, n - 1, trade);
      if w.Err? then w else PersistItem(w.value, p, items[n - 1], trade)
  }

  // --- `apply`

  datatype Status = Saved | NotNeeded | Clarification

  datatype Reply = Reply(entries: seq<nat>, status: Status, message: Option<string>)

  datatype Applied = Applied(store: Store, reply: Result<Reply>)

  function FindSource(sources: seq<Source>, owner: nat, digest: nat): Option<Source> {
    if sources == [] then None
    else if sources[0].owner == owner && sources[0].digest == digest then Some(sources[0])
    else FindSource(sources[1..], owner, digest)
  }

  predicate AllOwned(entries: map<nat, Row>, owner: nat, ids: seq<nat>) {
    forall i :: 0 <= i < |ids| ==> Owned(entries, owner, ids[i])
  }

  /** The identifiers whose rows are not undone, in order. */
  function NotUndone(entries: map<nat, Row>, ids: seq<nat>): seq<nat> {
    if ids == [] then []
    else
      var front, last := NotUndone(entries, ids[..|ids| - 1]), ids[|ids| - 1];
      if last in entries && !entries[last].undone then front + [last] else front
  }

  /** The answer when this source was captured before, in `prepare` and in `apply`. */
  function PriorReply(entries: map<nat, Row>, source: Source): Result<Reply> {
    if !AllOwned(entries, source.owner, source.entries) then Err(NotFound)
    else
      var live := NotUndone(entries, source.entries);
      Ok(Reply(live, if live != [] then Saved else NotNeeded, None))
  }

  const WHICH: string := "Which destination fits this contribution?"

  predicate Unsure(plan: Plan) {
    Given(plan.clarification) || exists i :: 0 <= i < |plan.entries| && plan.entries[i].confidence < 0.8
  }

  function Apply(s: Store, p: Prepared, plan: Plan, trade: Option<nat>): Applied {
    var prior := FindSource(s.sources, p.owner, p.digest);
    if prior.Some? then Applied(s, PriorReply(s.entries, prior.value))
    else if Unsure(plan) then
      Applied(s, Ok(Reply([], Clarification,
                          if Given(plan.clarification) then plan.clarification else Some(WHICH))))
    else if plan.entries == [] then Applied(s, Ok(Reply([], NotNeeded, None)))
    else
      var invalid := FirstError(plan.entries, |plan.entries|, p);
      if invalid.Some? then Applied(s, Err(invalid.value))
      else
        var changed := FirstTargetError(s.entries, plan.entries, |plan.entries|, p);
        if changed.Some? then Applied(s, Err(changed.value))
        else
          var w := Persist(s, p, plan.entries, |plan.entries|, trade);
          if w.Err? then Applied(s, Err(w.error))
          else
            Applied(Store(w.value.entries, s.sources + [Source(p.owner, p.digest, w.value.ids)], w.value.next),
                    Ok(Reply(w.value.ids, Saved, None)))
  }

  // --- prepare

  /** A snapshot taken in a state: candidates are the owner's entries that are not undone, at their revision. */
  ghost predicate PreparedIn(s: Store, p: Prepared) {
    forall id :: id in p.revisions ==>
      Owned(s.entries, p.owner, id) && !s.entries[id].undone && s.entries[id].revision == p.revisions[id]
  }

  // --- runs: edits and captures of any number of owners, interleaved in any order

  datatype Action =
    | Edit(owner: nat, id: nat, change: Change)
    | Capture(prepared: Prepared, plan: Plan, trade: Option<nat>)

  function Next(s: Store, a: Action): Store {
    match a
    case Edit(owner, id, change) =>
      var r := Update(s, owner, id, change);
      if r.Ok? then r.value else s
    case Capture(p, plan, trade) => Apply(s, p, plan, trade).store
  }

  ghost predicate Run(states: seq<Store>, actions: seq<Action>) {
    |states| == |actions| + 1 && forall k :: 0 <= k < |actions| ==> states[k + 1] == Next(states[k], actions[k])
  }
}
