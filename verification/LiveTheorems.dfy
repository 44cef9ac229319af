/** What every interleaving of a Live session keeps. */
module LiveTheorems {
  import opened Utf8
  import opened LiveDelegation

  /** The first sequence is the second with some elements left out, in the same order. */
  ghost predicate Subsequence(a: seq<Fragment>, b: seq<Fragment>)
    decreases |b|
  {
    || a == []
    || (b != [] && (Subsequence(a, b[..|b| - 1]) ||
                    (a[|a| - 1] == b[|b| - 1] && Subsequence(a[..|a| - 1], b[..|b| - 1]))))
  }

  /** Exactly the unconsumed fragments that start no later than the offset, in arrival order. */
  lemma {:induction false} ObservedExact(fragments: seq<Fragment>, consumed: set<string>, offset: int)
    ensures var r := Observed(fragments, consumed, offset);
            && Subsequence(r, fragments)
            && forall f :: f in r <==> f in fragments && f.id !in consumed && f.start <= offset
  {
    if fragments != [] {
      var front, f := fragments[..|fragments| - 1], fragments[|fragments| - 1];
      ObservedExact(front, consumed, offset);
      assert fragments == front + [f];
      var r := Observed(front, consumed, offset);
      assert (r + [f])[..|r|] == r;
    }
  }

  lemma {:induction false} SubsequenceGrows(a: seq<Fragment>, b: seq<Fragment>, f: Fragment)
    requires Subsequence(a, b)
    ensures Subsequence(a, b + [f])
  {
    assert (b + [f])[..|b|] == b;
  }

  // --- the invariant, part by part

  /** No two heard fragments share an identifier. */
  ghost predicate UniqueIds(fragments: seq<Fragment>, pending: set<Fragment>, seen: set<string>) {
    && (forall i, j :: 0 <= i < j < |fragments| ==> fragments[i].id != fragments[j].id)
    && (forall i :: 0 <= i < |fragments| ==> fragments[i].id in seen)
    && (forall f :: f in pending ==> f.id in seen)
    && (forall f, i :: f in pending && 0 <= i < |fragments| ==> fragments[i].id != f.id)
    && (forall f, g :: f in pending && g in pending && f.id == g.id ==> f == g)
  }

  /** What a task took: fragments in arrival order, marked consumed, none starting after its offset. */
  ghost predicate TaskOk(fragments: seq<Fragment>, consumed: set<string>, t: Task) {
    && Subsequence(t.taken, fragments) && IdsOf(t.taken) <= consumed
    && (forall f :: f in t.taken ==> f.start <= t.offset)
    && (t.taken != [] ==> |MessageOf(t.taken)| <= CAP && !Blank(MessageOf(t.taken)))
    && (t.phase == Queued || t.phase == Listening ==> t.taken == [])
  }

  ghost predicate TasksOk(fragments: seq<Fragment>, consumed: set<string>, tasks: seq<Task>) {
    forall k :: 0 <= k < |tasks| ==> TaskOk(fragments, consumed, tasks[k])
  }

  /** No fragment is in two messages. */
  ghost predicate Disjoint(tasks: seq<Task>) {
    forall j, k :: 0 <= j < k < |tasks| ==> IdsOf(tasks[j].taken) !! IdsOf(tasks[k].taken)
  }

  /** Every consumed fragment is in a message. */
  ghost predicate Accounted(consumed: set<string>, tasks: seq<Task>) {
    forall id :: id in consumed ==> exists k :: 0 <= k < |tasks| && id in IdsOf(tasks[k].taken)
  }

  ghost predicate Counted(limit: nat, delegations: set<string>, tasks: seq<Task>) {
    && |tasks| == |delegations| <= limit
    && (forall k :: 0 <= k < |tasks| ==> tasks[k].identifier in delegations)
    && (forall j, k :: 0 <= j < k < |tasks| ==> tasks[j].identifier != tasks[k].identifier)
  }

  predicate Begun(t: Task) {
    t.phase != Queued && t.phase != Failed
  }

  /** A task begins only after every earlier one returned. */
  ghost predicate Serial(tasks: seq<Task>) {
    forall j, k :: 0 <= j < k < |tasks| && Begun(tasks[k]) ==> tasks[j].phase == Done
  }

  ghost predicate Inv(s: Session) {
    && UniqueIds(s.fragments, s.pending, s.seen) && TasksOk(s.fragments, s.consumed, s.tasks)
    && Disjoint(s.tasks) && Accounted(s.consumed, s.tasks)
    && Counted(s.limit, s.delegations, s.tasks) && Serial(s.tasks)
  }

  // --- steps on one task

  /** A task moves on without touching what it took. */
  lemma {:induction false} PhaseKeeps(s: Session, k: nat, t: Task)
    requires Inv(s) && k < |s.tasks|
    requires t.identifier == s.tasks[k].identifier && t.offset == s.tasks[k].offset && t.taken == s.tasks[k].taken
    requires t.phase == Queued || t.phase == Listening ==> t.taken == []
    requires s.tasks[k].phase != Done
    requires Begun(t) ==> forall j :: 0 <= j < k ==> s.tasks[j].phase == Done
    ensures Inv(WithTask(s, k, t))
  {
    hide UniqueIds, IdsOf, Subsequence, MessageOf, Blank;
    var tasks := s.tasks[k := t];
    assert TasksOk(s.fragments, s.consumed, tasks);
    hide TaskOk;
    assert Disjoint(tasks);
    forall id | id in s.consumed ensures exists i :: 0 <= i < |tasks| && id in IdsOf(tasks[i].taken) {
      var i :| 0 <= i < |s.tasks| && id in IdsOf(s.tasks[i].taken);
      assert id in IdsOf(tasks[i].taken);
    }
    SerialPut(s.tasks, k, t);
  }

  lemma {:induction false} SerialPut(tasks: seq<Task>, k: nat, t: Task)
    requires Serial(tasks) && k < |tasks| && tasks[k].phase != Done
    requires Begun(t) ==> forall j :: 0 <= j < k ==> tasks[j].phase == Done
    ensures Serial(tasks[k := t])
  {
  }

  lemma {:induction false} FreshIds(s: Session, fragments: seq<Fragment>, offset: int)
    requires fragments == Observed(s.fragments, s.consumed, offset)
    ensures IdsOf(fragments) !! s.consumed && Subsequence(fragments, s.fragments)
    ensures forall f :: f in fragments ==> f.start <= offset
  {
    ObservedExact(s.fragments, s.consumed, offset);
  }

  lemma {:induction false} TaskGrows(fragments: seq<Fragment>, consumed: set<string>, more: set<string>, t: Task)
    requires TaskOk(fragments, consumed, t)
    ensures TaskOk(fragments, consumed + more, t)
  {
  }

  /** A task takes fragments nobody took before. */
  lemma {:induction false} TakeKeeps(s: Session, k: nat, t: Task, fragments: seq<Fragment>)
    requires Inv(s) && k < |s.tasks| && s.tasks[k].taken == [] && s.tasks[k].phase != Done
    requires t == s.tasks[k].(revision := t.revision, phase := Running, taken := fragments)
    requires forall j :: 0 <= j < k ==> s.tasks[j].phase == Done
    requires IdsOf(fragments) !! s.consumed && TaskOk(s.fragments, s.consumed + IdsOf(fragments), t)
    ensures Inv(WithTask(s, k, t).(consumed := s.consumed + IdsOf(fragments)))
  {
    hide UniqueIds, Subsequence, MessageOf, Blank;
    var tasks, consumed := s.tasks[k := t], s.consumed + IdsOf(fragments);
    forall j | 0 <= j < |tasks|
      ensures TaskOk(s.fragments, consumed, tasks[j])
      ensures j != k ==> IdsOf(tasks[j].taken) <= s.consumed
    {
      if j != k {
        TaskGrows(s.fragments, s.consumed, IdsOf(fragments), s.tasks[j]);
      }
    }
    hide TaskOk, IdsOf;
    assert Disjoint(tasks);
    AccountedTake(s.consumed, s.tasks, k, t);
    SerialPut(s.tasks, k, t);
  }

  lemma {:induction false} AccountedTake(consumed: set<string>, tasks: seq<Task>, k: nat, t: Task)
    requires k < |tasks| && tasks[k].taken == [] && Accounted(consumed, tasks)
    ensures Accounted(consumed + IdsOf(t.taken), tasks[k := t])
  {
    var after := tasks[k := t];
    forall id | id in consumed + IdsOf(t.taken) ensures exists i :: 0 <= i < |after| && id in IdsOf(after[i].taken) {
      if id in IdsOf(t.taken) {
        assert id in IdsOf(after[k].taken);
      } else {
        var i :| 0 <= i < |tasks| && id in IdsOf(tasks[i].taken);
        assert id in IdsOf(after[i].taken);
      }
    }
  }

  lemma {:induction false} ConsumeKeeps(s: Session, k: nat, revision: nat, fragments: seq<Fragment>)
    requires Inv(s) && k < |s.tasks| && (s.tasks[k].phase == Queued || s.tasks[k].phase == Listening)
    requires forall j :: 0 <= j < k ==> s.tasks[j].phase == Done
    requires fragments == [] || fragments == Observed(s.fragments, s.consumed, s.tasks[k].offset)
    ensures Inv(Consume(s, k, revision, fragments))
  {
    var t := s.tasks[k].(revision := revision);
    assert TaskOk(s.fragments, s.consumed, s.tasks[k]);
    if fragments != [] {
      FreshIds(s, fragments, t.offset);
    }
    hide Inv, Subsequence, Observed, MessageOf;
    if Blank(MessageOf(fragments)) {
      PhaseKeeps(s, k, t.(phase := Speaking));
    } else if |MessageOf(fragments)| > CAP {
      PhaseKeeps(s, k, t.(phase := Failed));
    } else {
      assert fragments != [] by {
        NoMessage();
      }
      TakeKeeps(s, k, t.(phase := Running, taken := fragments), fragments);
    }
  }

  lemma {:induction false} NoMessage()
    ensures Blank(MessageOf([]))
  {
  }

  lemma {:induction false} BegunPrefix(s: Session, k: nat)
    requires Serial(s.tasks) && k < |s.tasks|
    requires Begun(s.tasks[k]) || (k > 0 && s.tasks[k - 1].phase == Done) || k == 0
    ensures forall j :: 0 <= j < k ==> s.tasks[j].phase == Done
  {
  }

  // --- every step keeps the invariant

  lemma {:induction false} BeginKeeps(s: Session, k: nat)
    requires Inv(s) && In(s, k, Queued) && (k == 0 || In(s, k - 1, Done))
    ensures Inv(BeginTask(s, k))
  {
    BegunPrefix(s, k);
    assert TaskOk(s.fragments, s.consumed, s.tasks[k]);
    hide Inv, Subsequence, Observed, MessageOf, Consume, Blank;
    var t := s.tasks[k];
    var fragments := Observed(s.fragments, s.consumed, t.offset);
    if s.closing || t.revision != s.interruption {
      PhaseKeeps(s, k, t.(phase := Done));
    } else if fragments == [] {
      PhaseKeeps(s, k, t.(phase := Listening));
    } else {
      ConsumeKeeps(s, k, t.revision, fragments);
    }
  }

  lemma {:induction false} WakeKeeps(s: Session, k: nat)
    requires Inv(s) && In(s, k, Listening)
    ensures Inv(WakeTask(s, k))
  {
    BegunPrefix(s, k);
    hide Inv, Subsequence, Observed, MessageOf, Consume, Blank, LaterRequest;
    var t := s.tasks[k];
    if s.closing {
      PhaseKeeps(s, k, t.(phase := Done));
    } else {
      var fragments := if LaterRequest(s.fragments, t.offset) then [] else Observed(s.fragments, s.consumed, t.offset);
      ConsumeKeeps(s, k, s.interruption, fragments);
    }
  }

  lemma {:induction false} ReplyKeeps(s: Session, k: nat, phase: Phase)
    requires Inv(s) && k < |s.tasks| && phase != Queued && phase != Listening
    requires s.tasks[k].phase != Done && (phase == Failed || Begun(s.tasks[k]))
    ensures Inv(WithTask(s, k, s.tasks[k].(phase := phase)))
  {
    if phase != Failed {
      BegunPrefix(s, k);
    }
    hide Inv;
    PhaseKeeps(s, k, s.tasks[k].(phase := phase));
  }

  lemma {:induction false} TaskKeeps(s: Session, a: Action)
    requires Inv(s) && (a.Begin? || a.Wake? || a.Result? || a.Finish? || a.Fail?)
    ensures Inv(Next(s, a))
  {
    hide Inv, BeginTask, WakeTask, WithTask;
    if Next(s, a) != s {
      match a
      case Begin(k) => BeginKeeps(s, k);
      case Wake(k) => WakeKeeps(s, k);
      case Result(k, size) =>
        ReplyKeeps(s, k, if Speaks(s, k, size) then Speaking else if !s.closing && size > 24000 then Failed else Done);
      case Finish(k) => ReplyKeeps(s, k, Done);
      case Fail(k) => ReplyKeeps(s, k, Failed);
    }
  }

  lemma {:induction false} RecordKeeps(s: Session, f: Fragment)
    requires Inv(s) && f in s.pending
    ensures Inv(Next(s, Record(f)))
  {
    assert UniqueIds(s.fragments + [f], s.pending - {f}, s.seen);
    hide UniqueIds, Disjoint, Accounted, Counted, Serial;
    forall k | 0 <= k < |s.tasks| ensures TaskOk(s.fragments + [f], s.consumed, s.tasks[k]) {
      assert TaskOk(s.fragments, s.consumed, s.tasks[k]);
      SubsequenceGrows(s.tasks[k].taken, s.fragments, f);
      hide Subsequence;
    }
  }

  lemma {:induction false} DelegateKeeps(s: Session, a: Action)
    requires Inv(s) && a.Delegate? && Accepts(s, a)
    ensures Inv(Next(s, a))
  {
    hide UniqueIds, Subsequence, MessageOf, Blank, TaskOk, IdsOf;
    var t := Task(a.identifier, a.offset, s.interruption, Queued, []);
    var tasks := s.tasks + [t];
    QueuedOk(s.fragments, s.consumed, t);
    forall id | id in s.consumed ensures exists i :: 0 <= i < |tasks| && id in IdsOf(tasks[i].taken) {
      var i :| 0 <= i < |s.tasks| && id in IdsOf(s.tasks[i].taken);
      assert tasks[i] == s.tasks[i];
    }
    assert TasksOk(s.fragments, s.consumed, tasks) && Accounted(s.consumed, tasks);
    hide TasksOk, Accounted;
    assert Disjoint(tasks) && Serial(tasks);
    assert Counted(s.limit, s.delegations + {a.identifier}, tasks);
  }

  lemma {:induction false} QueuedOk(fragments: seq<Fragment>, consumed: set<string>, t: Task)
    requires t.phase == Queued && t.taken == []
    ensures TaskOk(fragments, consumed, t) && IdsOf(t.taken) == {}
  {
    hide Subsequence, MessageOf, Blank;
    EmptySubsequence(fragments);
  }

  lemma {:induction false} EmptySubsequence(fragments: seq<Fragment>)
    ensures Subsequence([], fragments)
  {
  }

  lemma {:induction false} StepKeeps(s: Session, a: Action)
    requires Inv(s)
    ensures Inv(Next(s, a))
  {
    if a.Begin? || a.Wake? || a.Result? || a.Finish? || a.Fail? {
      TaskKeeps(s, a);
    } else if a.Record? && a.fragment in s.pending {
      RecordKeeps(s, a.fragment);
    } else if a.Delegate? && Accepts(s, a) {
      DelegateKeeps(s, a);
    } else {
      hide TasksOk, Disjoint, Accounted, Counted, Serial;
    }
  }

  lemma {:induction false} RunKeeps(states: seq<Session>, actions: seq<Action>, i: nat)
    requires Run(states, actions) && states[0] == Opened(states[0].limit) && i < |states|
    ensures Inv(states[i])
  {
    hide Next;
    if i > 0 {
      RunKeeps(states, actions, i - 1);
      hide Inv;
      assert states[i - 1 + 1] == Next(states[i - 1], actions[i - 1]);
      StepKeeps(states[i - 1], actions[i - 1]);
    }
  }

  // --- each fragment reaches at most one turn

  /** Whether a step captures the revision a task will be held to. */
  predicate Captures(s: Session, a: Action, k: nat) {
    || (a.Delegate? && Accepts(s, a) && k == |s.tasks|)
    || (a.Wake? && a.task == k && In(s, k, Listening) && !s.closing)
  }

  /** Whether a step is a user fragment entering the transcript, or an interruption. */
  predicate Supersedes(s: Session, a: Action) {
    (a.Record? && a.fragment in s.pending) || (a.Interrupt? && !s.closing && s.ready)
  }

  /** A step of one task changes that task alone, and not what it already took. */
  lemma {:induction false} TaskStep(s: Session, a: Action)
    requires a.Begin? || a.Wake? || a.Result? || a.Finish? || a.Fail?
    requires a.task < |s.tasks| && (In(s, a.task, Queued) || In(s, a.task, Listening) ==> s.tasks[a.task].taken == [])
    ensures var t, k := Next(s, a), a.task;
            && k < |t.tasks| && t.tasks == s.tasks[k := t.tasks[k]]
            && t.tasks[k].identifier == s.tasks[k].identifier && t.tasks[k].offset == s.tasks[k].offset
            && (s.tasks[k].taken != [] ==> t.tasks[k].taken == s.tasks[k].taken)
            && (!Captures(s, a, k) ==> t.tasks[k].revision == s.tasks[k].revision)
  {
    hide Observed, MessageOf, Blank, LaterRequest, IdsOf, Accepts, Consume, BeginTask, WakeTask;
    if a.Begin? || a.Wake? {
      ChoosingStep(s, a);
    }
  }

  lemma {:induction false} ChoosingStep(s: Session, a: Action)
    requires a.Begin? || a.Wake?
    requires a.task < |s.tasks| && (In(s, a.task, Queued) || In(s, a.task, Listening) ==> s.tasks[a.task].taken == [])
    ensures var t, k := Next(s, a), a.task;
            && k < |t.tasks| && t.tasks == s.tasks[k := t.tasks[k]]
            && t.tasks[k].identifier == s.tasks[k].identifier && t.tasks[k].offset == s.tasks[k].offset
            && (s.tasks[k].taken != [] ==> t.tasks[k].taken == s.tasks[k].taken)
            && (!Captures(s, a, k) ==> t.tasks[k].revision == s.tasks[k].revision)
  {
    hide Observed, MessageOf, Blank, LaterRequest, IdsOf, Accepts;
  }

  lemma {:induction false} TakenOnce(s: Session, a: Action, k: nat)
    requires Inv(s) && k < |s.tasks|
    ensures var t := Next(s, a);
            && k < |t.tasks| && t.tasks[k].identifier == s.tasks[k].identifier && t.tasks[k].offset == s.tasks[k].offset
            && (s.tasks[k].taken != [] ==> t.tasks[k].taken == s.tasks[k].taken)
            && (!Captures(s, a, k) ==> t.tasks[k].revision == s.tasks[k].revision)
  {
    if a.Begin? || a.Wake? || a.Result? || a.Finish? || a.Fail? {
      if a.task < |s.tasks| {
        assert TaskOk(s.fragments, s.consumed, s.tasks[a.task]);
        hide Inv, Next;
        TaskStep(s, a);
      }
    } else {
      hide Inv;
    }
  }

  lemma {:induction false} Captured(s: Session, a: Action, k: nat)
    requires Captures(s, a, k)
    ensures var t := Next(s, a); k < |t.tasks| && t.tasks[k].revision == t.interruption == s.interruption
  {
    hide Observed, MessageOf, Blank, LaterRequest;
  }

  lemma {:induction false} Superseded(s: Session, a: Action)
    ensures var t := Next(s, a);
            && t.interruption == s.interruption + (if Supersedes(s, a) then 1 else 0)
            && (t.fragments == s.fragments ||
                (a.Record? && Supersedes(s, a) && t.fragments == s.fragments + [a.fragment]))
            && t.limit == s.limit
  {
    if a.Begin? || a.Wake? {
      ChoosingIsQuiet(s, a);
    }
    hide Observed, MessageOf, Blank, LaterRequest, IdsOf, Accepts, BeginTask, WakeTask;
  }

  lemma {:induction false} ChoosingIsQuiet(s: Session, a: Action)
    requires a.Begin? || a.Wake?
    ensures var t := Next(s, a);
            t.interruption == s.interruption && t.fragments == s.fragments && t.limit == s.limit
  {
    hide Observed, MessageOf, Blank, LaterRequest, IdsOf, Accepts;
  }

  lemma {:induction false} TakenForever(states: seq<Session>, actions: seq<Action>, i: nat, j: nat, k: nat)
    requires Run(states, actions) && states[0] == Opened(states[0].limit) && i <= j < |states|
    requires k < |states[i].tasks| && states[i].tasks[k].taken != []
    ensures k < |states[j].tasks| && states[j].tasks[k].taken == states[i].tasks[k].taken
    decreases j - i
  {
    hide Inv, Next;
    if i < j {
      TakenForever(states, actions, i, j - 1, k);
      RunKeeps(states, actions, j - 1);
      assert states[j - 1 + 1] == Next(states[j - 1], actions[j - 1]);
      TakenOnce(states[j - 1], actions[j - 1], k);
    }
  }

  /** Over a whole run, whenever two messages share a fragment they are the same turn's. */
  lemma {:induction false} OneTurnPerFragment(
    states: seq<Session>, actions: seq<Action>, i: nat, j: nat, a: nat, b: nat, f: Fragment, g: Fragment)
    requires Run(states, actions) && states[0] == Opened(states[0].limit) && i <= j < |states|
    requires a < |states[i].tasks| && f in states[i].tasks[a].taken
    requires b < |states[j].tasks| && g in states[j].tasks[b].taken && f.id == g.id
    ensures a == b
  {
    hide Next;
    TakenForever(states, actions, i, j, a);
    RunKeeps(states, actions, j);
    var tasks := states[j].tasks;
    assert f.id in IdsOf(tasks[a].taken) && f.id in IdsOf(tasks[b].taken);
    hide UniqueIds, TasksOk, Accounted, Counted, Serial, Run, IdsOf;
    SharedMeansSame(tasks, a, b, f.id);
  }

  lemma {:induction false} SharedMeansSame(tasks: seq<Task>, a: nat, b: nat, id: string)
    requires Disjoint(tasks) && a < |tasks| && b < |tasks|
    requires id in IdsOf(tasks[a].taken) && id in IdsOf(tasks[b].taken)
    ensures a == b
  {
    hide IdsOf;
  }

  lemma {:induction false} LimitKept(states: seq<Session>, actions: seq<Action>, i: nat)
    requires Run(states, actions) && i < |states|
    ensures states[i].limit == states[0].limit
  {
    hide Next;
    if i > 0 {
      LimitKept(states, actions, i - 1);
      assert states[i - 1 + 1] == Next(states[i - 1], actions[i - 1]);
      Superseded(states[i - 1], actions[i - 1]);
    }
  }

  ghost predicate HasVisible(text: string) {
    exists j :: 0 <= j < |text| && !Space(text[j])
  }

  /**
   * In every reachable state there are at most `maximum_turns` delegations, and each message is the in-order
   * concatenation of recorded fragments that start no later than its offset, not blank and within the size cap.
   */
  lemma {:induction false} MessagesFaithful(states: seq<Session>, actions: seq<Action>, i: nat, k: nat)
    requires Run(states, actions) && states[0] == Opened(states[0].limit) && i < |states|
    ensures |states[i].tasks| <= states[0].limit
    ensures k < |states[i].tasks| ==>
              var t := states[i].tasks[k];
              && Subsequence(t.taken, states[i].fragments) && IdsOf(t.taken) <= states[i].consumed
              && (forall f :: f in t.taken ==> f.start <= t.offset)
              && (t.taken != [] ==>
                    exists text :: Joins(text, t.taken) && |text| <= 8000 && HasVisible(text))
  {
    hide Next, Subsequence, MessageOf, IdsOf, Joins;
    RunKeeps(states, actions, i);
    LimitKept(states, actions, i);
    if k < |states[i].tasks| {
      var t := states[i].tasks[k];
      assert TaskOk(states[i].fragments, states[i].consumed, t);
      MessageExact(t.taken);
    }
  }

  /** At most one delegation is under way, and none begins behind one that failed. */
  lemma {:induction false} DelegationsSerialized(states: seq<Session>, actions: seq<Action>, i: nat, j: nat, k: nat)
    requires Run(states, actions) && states[0] == Opened(states[0].limit) && i < |states|
    requires j < k < |states[i].tasks| && Begun(states[i].tasks[k])
    ensures states[i].tasks[j].phase == Done
  {
    hide Next;
    RunKeeps(states, actions, i);
  }

  // --- speech

  /** Nothing from the user entered the session in the steps from one point up to another. */
  ghost predicate QuietBetween(states: seq<Session>, actions: seq<Action>, i: nat, j: nat)
    requires i <= j < |states| == |actions| + 1
  {
    && states[j].fragments == states[i].fragments
    && forall m :: i <= m < j ==> !Supersedes(states[m], actions[m])
  }

  lemma {:induction false} InterruptionGrows(states: seq<Session>, actions: seq<Action>, i: nat, j: nat)
    requires Run(states, actions) && i <= j < |states|
    ensures states[i].interruption <= states[j].interruption
    ensures states[i].interruption == states[j].interruption <==> QuietBetween(states, actions, i, j)
    decreases j - i
  {
    hide Next, Supersedes;
    if i < j {
      InterruptionGrows(states, actions, i, j - 1);
      assert states[j - 1 + 1] == Next(states[j - 1], actions[j - 1]);
      Superseded(states[j - 1], actions[j - 1]);
    }
  }

  /** The step at which a task's current revision was captured. */
  ghost predicate CapturedAt(states: seq<Session>, actions: seq<Action>, i: nat, j: nat, k: nat)
    requires i < j < |states| == |actions| + 1 && k < |states[j].tasks|
  {
    && Captures(states[i], actions[i], k)
    && states[j].tasks[k].revision == states[i + 1].interruption
    && forall m :: i < m < j ==> !Captures(states[m], actions[m], k)
  }

  lemma {:induction false} LastCapture(states: seq<Session>, actions: seq<Action>, j: nat, k: nat) returns (i: nat)
    requires Run(states, actions) && states[0] == Opened(states[0].limit) && j < |states| && k < |states[j].tasks|
    ensures i < j && CapturedAt(states, actions, i, j, k)
    decreases j
  {
    hide Next, Inv, Captures;
    var s, a := states[j - 1], actions[j - 1];
    assert states[j - 1 + 1] == Next(s, a);
    if Captures(s, a, k) {
      Captured(s, a, k);
      i := j - 1;
    } else {
      OldTask(s, a, k);
      i := LastCapture(states, actions, j - 1, k);
      RunKeeps(states, actions, j - 1);
      TakenOnce(s, a, k);
    }
  }

  lemma {:induction false} OldTask(s: Session, a: Action, k: nat)
    requires k < |Next(s, a).tasks| && !Captures(s, a, k)
    ensures k < |s.tasks|
  {
    if a.Begin? || a.Wake? {
      ChoosingCount(s, a);
    }
    hide Observed, MessageOf, Blank, LaterRequest, IdsOf, BeginTask, WakeTask;
  }

  lemma {:induction false} ChoosingCount(s: Session, a: Action)
    requires a.Begin? || a.Wake?
    ensures |Next(s, a).tasks| == |s.tasks|
  {
    hide Observed, MessageOf, Blank, LaterRequest, IdsOf;
  }

  /**
   * A result is handed to speech if and only if it is within 24000 bytes, no user fragment and no interruption came
   * after the step that captured the delegation's revision, and the session is neither muted nor closing.
   */
  lemma {:induction false} SpeechIsCurrent(states: seq<Session>, actions: seq<Action>, j: nat, k: nat, size: nat)
    returns (i: nat)
    requires Run(states, actions) && states[0] == Opened(states[0].limit) && j < |states| && In(states[j], k, Running)
    ensures i < j && CapturedAt(states, actions, i, j, k)
    ensures Next(states[j], Result(k, size)).tasks[k].phase == Speaking <==>
            && size <= 24000
            && QuietBetween(states, actions, i + 1, j) && !states[j].muted && !states[j].closing
  {
    assert Next(states[j], Result(k, size)).tasks[k].phase == Speaking <==> Speaks(states[j], k, size);
    hide Next, Captures, Supersedes;
    i := LastCapture(states, actions, j, k);
    InterruptionGrows(states, actions, i + 1, j);
  }
}
