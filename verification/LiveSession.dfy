/** The session object: each method is one handler, or the part of a handler between two awaits. */
module LiveSession {
  import opened Options
  import opened Utf8
  import opened LiveDelegation
  import opened LiveTheorems

  datatype Outcome = Handled | Ignored | Refused

  /** Some visible text, and no more than a turn may hold. */
  predicate Delegable(text: string) {
    |text| <= 8000 && exists i :: 0 <= i < |text| && !Space(text[i])
  }

  lemma {:induction false} LaterExact(fragments: seq<Fragment>, offset: int)
    ensures LaterRequest(fragments, offset) <==> exists f :: f in fragments && f.start > offset
  {
    if f :| f in fragments && f.start > offset {
      var i :| 0 <= i < |fragments| && fragments[i] == f;
    }
  }

  lemma {:induction false} SomeEligible(
    chosen: seq<Fragment>, fragments: seq<Fragment>, consumed: set<string>, offset: int)
    requires chosen != []
    requires forall f :: f in chosen <==> f in fragments && f.id !in consumed && f.start <= offset
    ensures exists f :: f in fragments && f.start <= offset && f.id !in consumed
  {
    assert chosen[0] in chosen;
  }

  class Live {
    const limit: nat
    var ready: bool
    var closing: bool
    var muted: bool
    var interruption: nat
    var seen: set<string>
    var pending: set<Fragment>
    var fragments: seq<Fragment>
    var consumed: set<string>
    var delegations: set<string>
    var tasks: seq<Task>

    function View(): Session
      reads this
    {
      Session(limit, ready, closing, muted, interruption, seen, pending, fragments, consumed, delegations, tasks)
    }

    constructor (limit: nat)
      ensures View() == Opened(limit) && Inv(View())
    {
      this.limit := limit;
      ready, closing, muted, interruption := false, false, false, 0;
      seen, pending, fragments, consumed, delegations, tasks := {}, {}, [], {}, {}, [];
    }

    /** The provider confirmed the session: once, and only with the configuration that was asked for. */
    method SessionStarted(configured: bool) returns (outcome: Outcome)
      requires Inv(View())
      modifies this`ready
      ensures Inv(View()) && View() == if outcome.Handled? then Next(old(View()), Start) else old(View())
      ensures outcome.Handled? <==> !closing && !old(ready) && configured
      ensures ready == (old(ready) || outcome.Handled?)
    {
      StepKeeps(View(), Start);
      hide Inv;
      if closing {
        return Ignored;
      }
      if ready || !configured {
        return Refused;
      }
      ready := true;
      return Handled;
    }

    /** A reply delta arrives: it is remembered like any other but delegates and supersedes nothing. */
    method HearReply(id: string, ordered: bool) returns (outcome: Outcome)
      requires Inv(View())
      modifies this`seen
      ensures Inv(View()) && View() == if outcome.Handled? then Next(old(View()), HearAssistant(id)) else old(View())
      ensures outcome.Handled? <==> ready && !closing && ordered && id !in old(seen)
      ensures outcome.Handled? ==> seen == old(seen) + {id}
    {
      StepKeeps(View(), HearAssistant(id));
      hide Inv;
      if closing {
        return Ignored;
      }
      if !ready || !ordered {
        return Refused;
      }
      if id in seen {
        return Ignored;
      }
      seen := seen + {id};
      return Handled;
    }

    /** The user resumes audio: the output is unmuted, and nothing superseded comes back. */
    method ResumePlayback() returns (outcome: Outcome)
      requires Inv(View())
      modifies this`muted
      ensures Inv(View()) && View() == Next(old(View()), Resume)
      ensures outcome.Handled? <==> ready && !closing
      ensures muted == (old(muted) && !outcome.Handled?)
    {
      StepKeeps(View(), Resume);
      hide Inv;
      if !ready || closing {
        return Refused;
      }
      muted := false;
      return Handled;
    }

    method RequestClose()
      requires Inv(View())
      modifies this`closing
      ensures Inv(View()) && View() == Next(old(View()), Close) && closing
    {
      StepKeeps(View(), Close);
      hide Inv;
      closing := true;
    }

    /** A user transcript delta arrives: a repeated identifier is dropped, a reversed interval is an error. */
    method HearTranscript(f: Fragment) returns (outcome: Outcome)
      requires Inv(View())
      modifies this`seen, this`pending
      ensures Inv(View()) && View() == Next(old(View()), Hear(f))
      ensures outcome.Handled? <==> ready && !closing && f.start <= f.end && f.id !in old(seen)
      ensures if outcome.Handled? then seen == old(seen) + {f.id} && pending == old(pending) + {f}
              else seen == old(seen) && pending == old(pending)
    {
      StepKeeps(View(), Hear(f));
      hide Inv;
      if closing {
        return Ignored;
      }
      if !ready || f.end < f.start {
        return Refused;
      }
      if f.id in seen {
        return Ignored;
      }
      seen := seen + {f.id};
      pending := pending + {f};
      return Handled;
    }

    /** The durable transcript write returned: the fragment becomes visible and supersedes running results. */
    method RecordTranscript(f: Fragment)
      requires Inv(View()) && f in pending
      modifies this`pending, this`fragments, this`interruption
      ensures Inv(View()) && View() == Next(old(View()), Record(f))
      ensures fragments == old(fragments) + [f] && interruption == old(interruption) + 1
    {
      StepKeeps(View(), Record(f));
      hide Inv;
      pending := pending - {f};
      fragments := fragments + [f];
      interruption := interruption + 1;
    }

    method InterruptResponse() returns (outcome: Outcome)
      requires Inv(View())
      modifies this`interruption, this`muted
      ensures Inv(View()) && View() == Next(old(View()), Interrupt)
      ensures outcome.Handled? <==> ready && !closing
      ensures if outcome.Handled? then muted && interruption == old(interruption) + 1
              else muted == old(muted) && interruption == old(interruption)
    {
      StepKeeps(View(), Interrupt);
      hide Inv;
      if !ready || closing {
        return Refused;
      }
      interruption := interruption + 1;
      muted := true;
      return Handled;
    }

    /** A delegation is created: at most once per identifier and at most `limit` in all. */
    method DelegationCreated(identifier: string, target: bool, offset: int) returns (outcome: Outcome)
      requires Inv(View())
      modifies this`delegations, this`tasks
      ensures Inv(View()) && View() == Next(old(View()), Delegate(identifier, target, offset))
      ensures outcome.Handled? <==>
              && ready && !closing && target && 1 <= |identifier| <= 128 && offset >= 0
              && identifier !in old(delegations) && |old(delegations)| < limit
      ensures outcome.Handled? ==>
                delegations == old(delegations) + {identifier} &&
                tasks == old(tasks) + [Task(identifier, offset, interruption, Queued, [])]
      ensures !outcome.Handled? ==> tasks == old(tasks) && delegations == old(delegations)
      ensures |tasks| <= limit
    {
      StepKeeps(View(), Delegate(identifier, target, offset));
      assert |tasks| == |delegations| <= limit;
      assert |Next(View(), Delegate(identifier, target, offset)).tasks| <= limit;
      hide Inv;
      if closing {
        return Ignored;
      }
      if !ready || !target || identifier == "" || |identifier| > 128 || offset < 0 {
        return Refused;
      }
      if identifier in delegations {
        return Ignored;
      }
      if |delegations| >= limit {
        return Refused;
      }
      delegations := delegations + {identifier};
      tasks := tasks + [Task(identifier, offset, interruption, Queued, [])];
      return Handled;
    }

    /** The list comprehension over `fragments`, as the loop it is. */
    method Observe(offset: int) returns (observed: seq<Fragment>)
      ensures observed == Observed(fragments, consumed, offset)
      ensures forall f :: f in observed <==> f in fragments && f.id !in consumed && f.start <= offset
    {
      ObservedExact(fragments, consumed, offset);
      observed := [];
      for i := 0 to |fragments|
        invariant observed == Observed(fragments[..i], consumed, offset)
      {
        assert fragments[..i + 1][..i] == fragments[..i];
        if fragments[i].id !in consumed && fragments[i].start <= offset {
          observed := observed + [fragments[i]];
        }
      }
      assert fragments[..|fragments|] == fragments;
    }

    /** From the chosen fragments to the ledger call; returns the message delegated, if there is one. */
    method ConsumeFragments(k: nat, revision: nat, chosen: seq<Fragment>) returns (message: Option<string>)
      requires k < |tasks|
      modifies this`tasks, this`consumed
      ensures View() == Consume(old(View()), k, revision, chosen)
      ensures tasks[k].phase == Running || tasks[k].phase == Speaking || tasks[k].phase == Failed
      ensures message.Some? ==>
                && Joins(message.value, chosen) && Delegable(message.value) && chosen != []
                && tasks[k] == old(tasks)[k].(revision := revision, phase := Running, taken := chosen)
                && forall id :: id in consumed <==> id in old(consumed) || exists f :: f in chosen && f.id == id
      ensures message.Some? ==> message.value == MessageOf(chosen)
      ensures message.Some? <==> Delegable(MessageOf(chosen))
      ensures message.None? ==>
                && consumed == old(consumed) && tasks[k].taken == old(tasks)[k].taken && tasks[k].phase != Running
                && forall text :: Joins(text, chosen) ==> !Delegable(text)
    {
      NoMessage();
      MessageExact(chosen);
      forall text | Joins(text, chosen) ensures text == MessageOf(chosen) {
        JoinsUnique(text, MessageOf(chosen), chosen);
      }
      hide MessageOf, Joins;
      var text := MessageOf(chosen);
      if Blank(text) {
        tasks := tasks[k := tasks[k].(revision := revision, phase := Speaking)];
        return None;
      }
      if |text| > CAP {
        tasks := tasks[k := tasks[k].(revision := revision, phase := Failed)];
        return None;
      }
      consumed := consumed + IdsOf(chosen);
      tasks := tasks[k := tasks[k].(revision := revision, phase := Running, taken := chosen)];
      return Some(text);
    }

    /** `_delegate` from the return of the previous task to its next await. */
    method BeginDelegation(k: nat) returns (message: Option<string>)
      requires Inv(View()) && In(View(), k, Queued) && (k == 0 || In(View(), k - 1, Done))
      modifies this`tasks, this`consumed
      ensures Inv(View()) && View() == Next(old(View()), Begin(k))
      ensures message.Some? ==>
                && !closing && old(tasks)[k].revision == interruption == tasks[k].revision
                && Joins(message.value, tasks[k].taken) && Delegable(message.value)
                && Subsequence(tasks[k].taken, fragments)
                && forall f :: f in tasks[k].taken <==>
                     f in fragments && f.id !in old(consumed) && f.start <= tasks[k].offset
      ensures !closing && old(tasks)[k].revision == interruption ==>
                (message.Some? <==>
                 Delegable(MessageOf(Observed(fragments, old(consumed), old(tasks)[k].offset))))
      ensures tasks[k].phase == Done <==> closing || old(tasks)[k].revision != interruption
      ensures tasks[k].phase == Listening <==>
              && !closing && old(tasks)[k].revision == interruption
              && forall f :: f in fragments && f.start <= old(tasks)[k].offset ==> f.id in old(consumed)
    {
      StepKeeps(View(), Begin(k));
      assert Next(View(), Begin(k)) == BeginTask(View(), k);
      hide Inv, Next, Consume, Observed, IdsOf, Joins, Delegable, Subsequence, MessageOf;
      if closing || tasks[k].revision != interruption {
        tasks := tasks[k := tasks[k].(phase := Done)];
        return None;
      }
      hide BeginTask;
      message := BeginCurrent(k);
    }

    /** The part of `_delegate` for a delegation that nothing superseded. */
    method BeginCurrent(k: nat) returns (message: Option<string>)
      requires In(View(), k, Queued) && !closing && tasks[k].revision == interruption
      modifies this`tasks, this`consumed
      ensures View() == BeginTask(old(View()), k) && tasks[k].phase != Done
      ensures message.Some? ==>
                && tasks[k].revision == interruption && Joins(message.value, tasks[k].taken)
                && Delegable(message.value) && Subsequence(tasks[k].taken, fragments)
                && forall f :: f in tasks[k].taken <==>
                     f in fragments && f.id !in old(consumed) && f.start <= tasks[k].offset
      ensures message.Some? <==> Delegable(MessageOf(Observed(fragments, old(consumed), old(tasks)[k].offset)))
      ensures tasks[k].phase == Listening <==>
              forall f :: f in fragments && f.start <= old(tasks)[k].offset ==> f.id in old(consumed)
    {
      var t := tasks[k];
      var chosen := Observe(t.offset);
      ObservedExact(fragments, consumed, t.offset);
      MessageExact(chosen);
      NoMessage();
      assert chosen == [] ==> !Delegable(MessageOf(chosen));
      hide Consume, Observed, IdsOf, Joins, Delegable, Subsequence, MessageOf, Blank;
      if chosen == [] {
        tasks := tasks[k := t.(phase := Listening)];
        return None;
      }
      SomeEligible(chosen, fragments, consumed, t.offset);
      assert BeginTask(View(), k) == Consume(View(), k, t.revision, chosen);
      hide BeginTask;
      message := ConsumeFragments(k, t.revision, chosen);
    }

    /** `_delegate` after the wait for a transcript: a later request's text is never taken for this one. */
    method WakeDelegation(k: nat) returns (message: Option<string>)
      requires Inv(View()) && In(View(), k, Listening)
      modifies this`tasks, this`consumed
      ensures Inv(View()) && View() == Next(old(View()), Wake(k))
      ensures message.Some? ==>
                && !closing && tasks[k].revision == interruption
                && Joins(message.value, tasks[k].taken) && Delegable(message.value)
                && Subsequence(tasks[k].taken, fragments)
                && (forall f :: f in fragments ==> f.start <= tasks[k].offset)
                && forall f :: f in tasks[k].taken <==> f in fragments && f.id !in old(consumed)
      ensures !closing ==>
                (message.Some? <==>
                 && Delegable(MessageOf(Observed(fragments, old(consumed), old(tasks)[k].offset)))
                 && forall f :: f in fragments ==> f.start <= old(tasks)[k].offset)
      ensures tasks[k].phase == Done <==> closing
    {
      StepKeeps(View(), Wake(k));
      assert Next(View(), Wake(k)) == WakeTask(View(), k);
      hide Inv, Next, Consume, Observed, IdsOf, Joins, Delegable, Subsequence, MessageOf;
      if closing {
        tasks := tasks[k := tasks[k].(phase := Done)];
        return None;
      }
      hide WakeTask, LaterRequest;
      message := WakeOpen(k);
    }

    /** The part of `_delegate` after the wait, in a session that is still open. */
    method WakeOpen(k: nat) returns (message: Option<string>)
      requires In(View(), k, Listening) && !closing
      modifies this`tasks, this`consumed
      ensures View() == WakeTask(old(View()), k) && tasks[k].phase != Done
      ensures message.Some? ==>
                && tasks[k].revision == interruption && Joins(message.value, tasks[k].taken)
                && Delegable(message.value) && Subsequence(tasks[k].taken, fragments)
                && (forall f :: f in fragments ==> f.start <= tasks[k].offset)
                && forall f :: f in tasks[k].taken <==> f in fragments && f.id !in old(consumed)
      ensures message.Some? <==>
              && Delegable(MessageOf(Observed(fragments, old(consumed), old(tasks)[k].offset)))
              && forall f :: f in fragments ==> f.start <= old(tasks)[k].offset
    {
      var t := tasks[k];
      var chosen := Observe(t.offset);
      ObservedExact(fragments, consumed, t.offset);
      MessageExact(chosen);
      NoMessage();
      assert !Delegable(MessageOf([]));
      LaterExact(fragments, t.offset);
      hide Consume, Observed, IdsOf, Joins, Delegable, Subsequence, MessageOf, Blank;
      if LaterRequest(fragments, t.offset) {
        chosen := [];
      }
      assert Consume(View(), k, interruption, chosen) == WakeTask(View(), k);
      hide WakeTask, LaterRequest;
      message := ConsumeFragments(k, interruption, chosen);
    }

    /** The canonical result is back: hand it to speech, or discard it from the voice context. */
    method ResultReturned(k: nat, size: nat) returns (spoken: bool)
      requires Inv(View()) && In(View(), k, Running)
      modifies this`tasks
      ensures Inv(View()) && View() == Next(old(View()), Result(k, size))
      ensures spoken <==> !closing && size <= 24000 && old(tasks)[k].revision == interruption && !muted
      ensures tasks[k].phase == if spoken then Speaking else if !closing && size > 24000 then Failed else Done
    {
      StepKeeps(View(), Result(k, size));
      hide Inv;
      var t := tasks[k];
      spoken := false;
      if closing {
        tasks := tasks[k := t.(phase := Done)];
      } else if size > 24000 {
        tasks := tasks[k := t.(phase := Failed)];
      } else if t.revision == interruption && !muted {
        tasks := tasks[k := t.(phase := Speaking)];
        spoken := true;
      } else {
        tasks := tasks[k := t.(phase := Done)];
      }
    }
  }
}
