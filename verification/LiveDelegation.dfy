/**
 * A Live voice session (backend/src/app/agent_voice/live_service.py): transcript fragments arrive, delegations
 * consume them one after another, and the user may interrupt at any point. One step is the code between two
 * awaits, so steps of the provider, the client and any number of delegation tasks interleave freely.
 */
module LiveDelegation {
  import opened Utf8

  datatype Fragment = Fragment(id: string, delta: string, start: int, end: int)

  /** Where a delegation task stands: `Speaking` appends to the voice context, `Done` returned, `Failed` raised. */
  datatype Phase = Queued | Listening | Running | Speaking | Done | Failed

  datatype Task = Task(identifier: string, offset: int, revision: nat, phase: Phase, taken: seq<Fragment>)

  datatype Session = Session(
    limit: nat, ready: bool, closing: bool, muted: bool, interruption: nat, seen: set<string>,
    pending: set<Fragment>, fragments: seq<Fragment>, consumed: set<string>, delegations: set<string>,
    tasks: seq<Task>)

  function Opened(limit: nat): Session {
    Session(limit, false, false, false, 0, {}, {}, [], {}, {}, [])
  }

  const CAP: nat := 8000

  // --- the transcript of a delegation

  /** `observed`: unconsumed fragments that start no later than the offset, in arrival order. */
  function Observed(fragments: seq<Fragment>, consumed: set<string>, offset: int): seq<Fragment> {
    if fragments == [] then []
    else
      var front, f := Observed(fragments[..|fragments| - 1], consumed, offset), fragments[|fragments| - 1];
      if f.id !in consumed && f.start <= offset then front + [f] else front
  }

  function MessageOf(fragments: seq<Fragment>): string {
    if fragments == [] then "" else MessageOf(fragments[..|fragments| - 1]) + fragments[|fragments| - 1].delta
  }

  /** The length of the first `k` deltas together. */
  function LengthOf(fragments: seq<Fragment>, k: nat): nat
    requires k <= |fragments|
  {
    if k == 0 then 0 else LengthOf(fragments, k - 1) + |fragments[k - 1].delta|
  }

  /** The message is the deltas one after another, in order and with nothing else. */
  ghost predicate Joins(message: string, fragments: seq<Fragment>) {
    && |message| == LengthOf(fragments, |fragments|)
    && forall k :: 0 <= k < |fragments| ==> StandsAt(message, LengthOf(fragments, k), fragments[k].delta)
  }

  predicate StandsAt(message: string, i: nat, text: string) {
    i + |text| <= |message| && message[i..i + |text|] == text
  }

  lemma {:induction false} LengthPrefix(fragments: seq<Fragment>, k: nat)
    requires k < |fragments|
    ensures LengthOf(fragments[..|fragments| - 1], k) == LengthOf(fragments, k)
    decreases k
  {
    if k > 0 {
      LengthPrefix(fragments, k - 1);
    }
  }

  lemma {:induction false} JoinsOneMore(front: string, message: string, fragments: seq<Fragment>)
    requires fragments != [] && Joins(front, fragments[..|fragments| - 1])
    requires message == front + fragments[|fragments| - 1].delta
    ensures Joins(message, fragments)
  {
    var n := |fragments| - 1;
    LengthPrefixes(fragments);
    forall k | 0 <= k < |fragments| ensures StandsAt(message, LengthOf(fragments, k), fragments[k].delta) {
      hide StandsAt, LengthOf;
      PartStands(front, message, fragments, k);
    }
    hide StandsAt;
  }

  lemma {:induction false} PartStands(front: string, message: string, fragments: seq<Fragment>, k: nat)
    requires k < |fragments| && Joins(front, fragments[..|fragments| - 1])
    requires message == front + fragments[|fragments| - 1].delta
    ensures StandsAt(message, LengthOf(fragments, k), fragments[k].delta)
  {
    hide StandsAt, LengthOf;
    var n := |fragments| - 1;
    LengthPrefixes(fragments);
    if k < n {
      assert StandsAt(front, LengthOf(fragments[..n], k), fragments[..n][k].delta);
      StandsLonger(front, fragments[n].delta, LengthOf(fragments, k), fragments[k].delta);
    } else {
      StandsLast(front, fragments[n].delta);
    }
  }

  lemma {:induction false} StandsLonger(front: string, more: string, i: nat, text: string)
    requires StandsAt(front, i, text)
    ensures StandsAt(front + more, i, text)
  {
    assert (front + more)[i..i + |text|] == front[i..i + |text|];
  }

  lemma {:induction false} StandsLast(front: string, last: string)
    ensures StandsAt(front + last, |front|, last)
  {
  }

  lemma {:induction false} LengthPrefixes(fragments: seq<Fragment>)
    requires fragments != []
    ensures var n := |fragments| - 1;
            forall k :: 0 <= k <= n ==> LengthOf(fragments[..n], k) == LengthOf(fragments, k)
  {
    var n := |fragments| - 1;
    forall k | 0 <= k <= n ensures LengthOf(fragments[..n], k) == LengthOf(fragments, k) {
      LengthPrefix(fragments, k);
    }
  }

  /** The delegated text is exactly the deltas in arrival order. */
  lemma {:induction false} MessageExact(fragments: seq<Fragment>)
    ensures Joins(MessageOf(fragments), fragments)
  {
    if fragments != [] {
      hide Joins;
      MessageExact(fragments[..|fragments| - 1]);
      JoinsOneMore(MessageOf(fragments[..|fragments| - 1]), MessageOf(fragments), fragments);
    }
  }

  /** There is only one such text. */
  lemma {:induction false} JoinsUnique(a: string, b: string, fragments: seq<Fragment>)
    requires Joins(a, fragments) && Joins(b, fragments)
    ensures a == b
  {
    forall i | 0 <= i < |a| ensures a[i] == b[i] {
      var k := PartOf(fragments, i, |fragments|);
      SameInPart(a, b, fragments, i, k);
    }
  }

  lemma {:induction false} SameInPart(a: string, b: string, fragments: seq<Fragment>, i: nat, k: nat)
    requires Joins(a, fragments) && Joins(b, fragments) && i < |a| && i < |b| && k < |fragments|
    requires LengthOf(fragments, k) <= i < LengthOf(fragments, k) + |fragments[k].delta|
    ensures a[i] == b[i]
  {
    hide LengthOf, StandsAt;
    var j, text := LengthOf(fragments, k), fragments[k].delta;
    assert StandsAt(a, j, text) && StandsAt(b, j, text);
    CharAt(a, j, text, i);
    CharAt(b, j, text, i);
  }

  lemma {:induction false} CharAt(message: string, j: nat, text: string, i: nat)
    requires StandsAt(message, j, text) && j <= i < j + |text|
    ensures message[i] == text[i - j]
  {
    assert message[j..j + |text|][i - j] == message[i];
  }

  /** The delta that a position of the joined text falls into. */
  lemma {:induction false} PartOf(fragments: seq<Fragment>, i: nat, n: nat) returns (k: nat)
    requires n <= |fragments| && i < LengthOf(fragments, n)
    ensures k < n && LengthOf(fragments, k) <= i < LengthOf(fragments, k) + |fragments[k].delta|
  {
    if i >= LengthOf(fragments, n - 1) {
      k := n - 1;
    } else {
      k := PartOf(fragments, i, n - 1);
    }
  }

  function IdsOf(fragments: seq<Fragment>): set<string> {
    set f | f in fragments :: f.id
  }

  predicate LaterRequest(fragments: seq<Fragment>, offset: int) {
    exists i :: 0 <= i < |fragments| && fragments[i].start > offset
  }

  // --- steps

  datatype Action =
    | Start
    | Hear(fragment: Fragment)
    | Record(fragment: Fragment)
    | HearAssistant(id: string)
    | Interrupt
    | Resume
    | Delegate(identifier: string, target: bool, offset: int)
    | Begin(task: nat)
    | Wake(task: nat)
    | Result(task: nat, size: nat)
    | Finish(task: nat)
    | Fail(task: nat)
    | Close

  function WithTask(s: Session, k: nat, t: Task): Session
    requires k < |s.tasks|
  {
    s.(tasks := s.tasks[k := t])
  }

  /** The rest of `_delegate` up to the ledger call, once the fragments are chosen. */
  function Consume(s: Session, k: nat, revision: nat, fragments: seq<Fragment>): Session
    requires k < |s.tasks|
  {
    var t := s.tasks[k].(revision := revision);
    if Blank(MessageOf(fragments)) then WithTask(s, k, t.(phase := Speaking))
    else if |MessageOf(fragments)| > CAP then WithTask(s, k, t.(phase := Failed))
    else
      WithTask(s, k, t.(phase := Running, taken := fragments)).(consumed := s.consumed + IdsOf(fragments))
  }

  function BeginTask(s: Session, k: nat): Session
    requires k < |s.tasks|
  {
    var t := s.tasks[k];
    if s.closing || t.revision != s.interruption then WithTask(s, k, t.(phase := Done))
    else
      var fragments := Observed(s.fragments, s.consumed, t.offset);
      if fragments == [] then WithTask(s, k, t.(phase := Listening)) else Consume(s, k, t.revision, fragments)
  }

  function WakeTask(s: Session, k: nat): Session
    requires k < |s.tasks|
  {
    var t := s.tasks[k];
    if s.closing then WithTask(s, k, t.(phase := Done))
    else
      var fragments := Observed(s.fragments, s.consumed, t.offset);
      Consume(s, k, s.interruption, if LaterRequest(s.fragments, t.offset) then [] else fragments)
  }

  /** The result is handed to speech. */
  predicate Speaks(s: Session, k: nat, size: nat) {
    && k < |s.tasks| && s.tasks[k].phase == Running
    && !s.closing && size <= 24000 && s.tasks[k].revision == s.interruption && !s.muted
  }

  function ResultTask(s: Session, k: nat, size: nat): Session
    requires k < |s.tasks|
  {
    var t := s.tasks[k];
    if Speaks(s, k, size) then WithTask(s, k, t.(phase := Speaking))
    else if !s.closing && size > 24000 then WithTask(s, k, t.(phase := Failed))
    else WithTask(s, k, t.(phase := Done))
  }

  predicate Accepts(s: Session, a: Action)
    requires a.Delegate?
  {
    && s.ready && !s.closing && a.target && 0 < |a.identifier| <= 128 && a.offset >= 0
    && a.identifier !in s.delegations && |s.delegations| < s.limit
  }

  predicate In(s: Session, k: nat, phase: Phase) {
    k < |s.tasks| && s.tasks[k].phase == phase
  }

  /** A step; one that is not possible in the state, or that the code refuses, changes nothing. */
  function Next(s: Session, a: Action): Session {
    match a
    case Start => if s.closing then s else s.(ready := true)
    case Hear(f) =>
      if s.closing || !s.ready || f.end < f.start || f.id in s.seen then s
      else s.(seen := s.seen + {f.id}, pending := s.pending + {f})
    case HearAssistant(id) => if s.closing || !s.ready then s else s.(seen := s.seen + {id})
    case Record(f) =>
      if f !in s.pending then s
      else s.(pending := s.pending - {f}, fragments := s.fragments + [f], interruption := s.interruption + 1)
    case Interrupt =>
      if s.closing || !s.ready then s else s.(interruption := s.interruption + 1, muted := true)
    case Resume => if s.closing || !s.ready then s else s.(muted := false)
    case Delegate(identifier, target, offset) =>
      if !Accepts(s, a) then s
      else s.(delegations := s.delegations + {identifier},
              tasks := s.tasks + [Task(identifier, offset, s.interruption, Queued, [])])
    case Begin(k) => if In(s, k, Queued) && (k == 0 || In(s, k - 1, Done)) then BeginTask(s, k) else s
    case Wake(k) => if In(s, k, Listening) then WakeTask(s, k) else s
    case Result(k, size) => if In(s, k, Running) then ResultTask(s, k, size) else s
    case Finish(k) => if In(s, k, Speaking) then WithTask(s, k, s.tasks[k].(phase := Done)) else s
    case Fail(k) =>
      if k < |s.tasks| && s.tasks[k].phase != Done then WithTask(s, k, s.tasks[k].(phase := Failed)) else s
    case Close => s.(closing := true)
  }

  ghost predicate Run(states: seq<Session>, actions: seq<Action>) {
    && |states| == |actions| + 1
    && forall i :: 0 <= i < |actions| ==> states[i + 1] == Next(states[i], actions[i])
  }
}
