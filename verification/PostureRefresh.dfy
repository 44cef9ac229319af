/**
 * Latest-wins refresh of one posture source in frontend/src/contexts/AppContext.tsx. Requests suspend
 * between start and settle, so any number may be outstanding and they settle in any order.
 */
module PostureRefresh {
  import opened Options

  /** A failed read clears health and providers but keeps the last kill-switch status. */
  datatype OnFailure = Clear | Keep

  /**
   * `shown` is the displayed value with the generation that produced it; `outstanding` are the
   * generations of requests sent and not yet answered; `applied` is the history of applied reads.
   */
  datatype Source<V> = Source(
    generation: nat, inFlight: bool, outstanding: set<nat>, shown: Option<V>, shownBy: nat, applied: seq<nat>,
    failed: bool)

  datatype Action<V> =
    | Start(background: bool)
    | Settle(request: nat, answer: Option<V>)
    | MutationStart
    | MutationSucceeded(status: V)
    | MutationFailed
    | SignedOut

  function Initial<V>(): Source<V> {
    Source(0, false, {}, None, 0, [], false)
  }

  function Step<V>(onFailure: OnFailure, s: Source<V>, a: Action<V>): Source<V> {
    match a
    case Start(background) =>
      if background && s.inFlight then s
      else s.(generation := s.generation + 1, inFlight := true, outstanding := s.outstanding + {s.generation + 1})
    case Settle(request, answer) =>
      if request !in s.outstanding then s
      else if request != s.generation then s.(outstanding := s.outstanding - {request})
      else
        var shown := if answer.None? && onFailure == Keep then s.shown else answer;
        s.(outstanding := s.outstanding - {request}, inFlight := false, shown := shown, shownBy := request,
           applied := s.applied + [request], failed := answer.None?)
    case MutationStart => s.(generation := s.generation + 1, inFlight := false, failed := false)
    case MutationSucceeded(status) =>
      s.(generation := s.generation + 1, inFlight := false, shown := Some(status), shownBy := s.generation + 1)
    case MutationFailed => s.(failed := true)
    case SignedOut => s.(shown := None)
  }

  ghost predicate Run<V>(onFailure: OnFailure, actions: seq<Action<V>>, states: seq<Source<V>>) {
    && |states| == |actions| + 1 && states[0] == Initial()
    && forall i :: 0 <= i < |actions| ==> states[i + 1] == Step(onFailure, states[i], actions[i])
  }

  /** The flag is up exactly while the request of the current generation is outstanding. */
  ghost predicate Inv<V>(s: Source<V>) {
    && (s.inFlight <==> s.generation in s.outstanding)
    && (forall g :: g in s.outstanding ==> g <= s.generation)
    && (forall i, j :: 0 <= i < j < |s.applied| ==> s.applied[i] < s.applied[j])
    && (forall i :: 0 <= i < |s.applied| ==> s.applied[i] <= s.shownBy && s.applied[i] !in s.outstanding)
    && s.shownBy <= s.generation && (s.shownBy == s.generation ==> s.generation !in s.outstanding)
  }

  lemma StepKeeps<V>(onFailure: OnFailure, s: Source<V>, a: Action<V>)
    requires Inv(s)
    ensures Inv(Step(onFailure, s, a))
    ensures Step(onFailure, s, a).generation >= s.generation && Step(onFailure, s, a).shownBy >= s.shownBy
    ensures s.applied <= Step(onFailure, s, a).applied
  {
  }

  lemma {:induction false} RunKeeps<V>(
    onFailure: OnFailure, actions: seq<Action<V>>, states: seq<Source<V>>, i: nat, j: nat)
    requires Run(onFailure, actions, states) && i <= j < |states|
    ensures Inv(states[j])
    ensures states[i].generation <= states[j].generation && states[i].shownBy <= states[j].shownBy
    ensures states[i].applied <= states[j].applied
    decreases j - i, j
  {
    if i < j {
      RunKeeps(onFailure, actions, states, i, j - 1);
      StepKeeps(onFailure, states[j - 1], actions[j - 1]);
    } else if j > 0 {
      RunKeeps(onFailure, actions, states, j - 1, j - 1);
      StepKeeps(onFailure, states[j - 1], actions[j - 1]);
    }
  }

  /**
   * In every interleaving: applied reads have strictly increasing generations, what is shown never goes
   * back to an older generation, and the in-flight flag is true exactly when the current generation's
   * request is outstanding.
   */
  lemma LatestWins<V>(onFailure: OnFailure, actions: seq<Action<V>>, states: seq<Source<V>>, i: nat, j: nat)
    requires Run(onFailure, actions, states) && i <= j < |states|
    ensures forall m, n :: 0 <= m < n < |states[j].applied| ==> states[j].applied[m] < states[j].applied[n]
    ensures states[i].shownBy <= states[j].shownBy
    ensures states[j].inFlight <==> states[j].generation in states[j].outstanding
  {
    RunKeeps(onFailure, actions, states, i, j);
  }

  // --- what is shown

  /** The action puts a value, or nothing, on display: the current answer, a mutation's response, or a sign-out. */
  predicate Shows<V>(onFailure: OnFailure, s: Source<V>, a: Action<V>) {
    match a
    case Settle(request, answer) =>
      request in s.outstanding && request == s.generation && (answer.Some? || onFailure == Clear)
    case MutationSucceeded(_) => true
    case SignedOut => true
    case _ => false
  }

  function Displayed<V>(a: Action<V>): Option<V> {
    match a
    case Settle(_, answer) => answer
    case MutationSucceeded(status) => Some(status)
    case _ => None
  }

  /** Every step, field by field. */
  lemma {:induction false} StepExact<V>(onFailure: OnFailure, s: Source<V>, a: Action<V>)
    ensures var s' := Step(onFailure, s, a);
            var sends := a.Start? && !(a.background && s.inFlight);
            var settles := a.Settle? && a.request in s.outstanding && a.request == s.generation;
            var mutates := a.MutationStart? || a.MutationSucceeded?;
            && s'.shown == (if Shows(onFailure, s, a) then Displayed(a) else s.shown)
            && s'.generation == s.generation + (if sends || mutates then 1 else 0)
            && s'.inFlight == (sends || (s.inFlight && !settles && !mutates))
            && s'.outstanding == (if sends then s.outstanding + {s.generation + 1}
                                  else if a.Settle? then s.outstanding - {a.request} else s.outstanding)
            && s'.failed == (if settles then a.answer.None? else (a.MutationFailed? || (s.failed && !a.MutationStart?)))
            && s'.applied == (if settles then s.applied + [s.generation] else s.applied)
  {
  }

  /**
   * At every point of every run what is shown is what the last showing action put there -- the answer of a read that
   * was current when it settled, a mutation's response, or nothing after a failed read or a sign-out.
   */
  lemma {:induction false} ShownIsLatest<V>(
    onFailure: OnFailure, actions: seq<Action<V>>, states: seq<Source<V>>, n: nat)
    requires Run(onFailure, actions, states) && n < |states|
    ensures (exists m :: LastShown(onFailure, actions, states, m, n) && states[n].shown == Displayed(actions[m])) ||
            ((forall k :: 0 <= k < n ==> !Shows(onFailure, states[k], actions[k])) && states[n].shown == None)
  {
    if n > 0 {
      ShownIsLatest(onFailure, actions, states, n - 1);
      StepExact(onFailure, states[n - 1], actions[n - 1]);
      assert states[n - 1 + 1] == Step(onFailure, states[n - 1], actions[n - 1]);
      hide Shows, Displayed, Step;
      if Shows(onFailure, states[n - 1], actions[n - 1]) {
        assert LastShown(onFailure, actions, states, n - 1, n);
      } else if m :| LastShown(onFailure, actions, states, m, n - 1) && states[n - 1].shown == Displayed(actions[m]) {
        assert LastShown(onFailure, actions, states, m, n);
      }
    }
  }

  ghost predicate LastShown<V>(
    onFailure: OnFailure, actions: seq<Action<V>>, states: seq<Source<V>>, m: int, n: nat)
    requires n < |states| == |actions| + 1
  {
    0 <= m < n && Shows(onFailure, states[m], actions[m]) &&
    forall k :: m < k < n ==> !Shows(onFailure, states[k], actions[k])
  }

  /** A read started before a mutation's successful response changes nothing shown after it. */
  lemma MutationIsAuthoritative<V>(
    onFailure: OnFailure, actions: seq<Action<V>>, states: seq<Source<V>>, m: nat, k: nat)
    requires Run(onFailure, actions, states) && m < k < |actions|
    requires actions[m].MutationSucceeded? && actions[k].Settle? && actions[k].request <= states[m].generation
    ensures states[k + 1].shown == states[k].shown && states[k + 1].applied == states[k].applied
    ensures states[k + 1].inFlight == states[k].inFlight
  {
    assert states[m + 1] == Step(onFailure, states[m], actions[m]);
    RunKeeps(onFailure, actions, states, m + 1, k);
    assert states[k + 1] == Step(onFailure, states[k], actions[k]);
  }

  /** The flag never sticks: it is up only for an outstanding request, and answering that request lowers it. */
  lemma FlagReleases<V>(
    onFailure: OnFailure, actions: seq<Action<V>>, states: seq<Source<V>>, n: nat, answer: Option<V>)
    requires Run(onFailure, actions, states) && n < |states|
    ensures var s := states[n];
            var s' := Step(onFailure, s, Settle(s.generation, answer));
            && !s'.inFlight
            && Step(onFailure, s', Start(true)).generation == s.generation + 1
  {
    RunKeeps(onFailure, actions, states, n, n);
  }

  /** The refs and the state of one source, as the component's callbacks change them. */
  class SourceRefs<V(==)> {
    const onFailure: OnFailure
    var generation: nat
    var inFlight: bool
    var shown: Option<V>
    var failed: bool
    ghost var outstanding: set<nat>
    ghost var shownBy: nat
    ghost var applied: seq<nat>

    ghost function State(): Source<V>
      reads this
    {
      Source(generation, inFlight, outstanding, shown, shownBy, applied, failed)
    }

    constructor (onFailure: OnFailure)
      ensures State() == Initial() && this.onFailure == onFailure
    {
      this.onFailure := onFailure;
      generation, inFlight, shown, failed := 0, false, None, false;
      outstanding, shownBy, applied := {}, 0, [];
    }

    /** The part of a refresh before its await; nothing is sent when a background tick finds one in flight. */
    method StartRefresh(background: bool) returns (request: Option<nat>)
      modifies this
      ensures State() == Step(onFailure, old(State()), Start(background))
      ensures request == if background && old(inFlight) then None else Some(generation)
    {
      if background && inFlight {
        return None;
      }
      generation := generation + 1;
      inFlight := true;
      outstanding := outstanding + {generation};
      return Some(generation);
    }

    /** The part after the await, for an answer or a failure. */
    method SettleRefresh(request: nat, answer: Option<V>)
      requires request in outstanding
      modifies this
      ensures State() == Step(onFailure, old(State()), Settle(request, answer))
    {
      outstanding := outstanding - {request};
      if request == generation {
        if answer.Some? || onFailure == Clear {
          shown := answer;
        }
        failed := answer.None?;
        shownBy := request;
        applied := applied + [request];
        inFlight := false;
      }
    }

    method InvalidateReads()
      modifies this
      ensures State() == Step(onFailure, old(State()), MutationStart)
    {
      failed := false;
      generation := generation + 1;
      inFlight := false;
    }

    method MutationAnswered(status: V)
      modifies this
      ensures State() == Step(onFailure, old(State()), MutationSucceeded(status))
    {
      generation := generation + 1;
      inFlight := false;
      shown := Some(status);
      shownBy := generation;
    }

    /** A refused mutation leaves what is shown and only raises the error. */
    method MutationRefused()
      modifies this
      ensures State() == Step(onFailure, old(State()), MutationFailed)
      ensures shown == old(shown) && generation == old(generation) && inFlight == old(inFlight)
    {
      failed := true;
    }

    /** The unauthenticated branch of the kill-switch read: nothing is shown and nothing is sent. */
    method ClearSignedOut()
      modifies this
      ensures State() == Step(onFailure, old(State()), SignedOut)
      ensures shown.None? && generation == old(generation) && outstanding == old(outstanding)
    {
      shown := None;
    }
  }
}
