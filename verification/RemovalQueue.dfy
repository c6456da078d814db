/** How removals under one key are made to follow each other: every call awaits the tail its predecessor left in a
    map, and takes its own tail out again when it is still the last. */
module RemovalQueue {
  import opened Common

  type Key = nat

  datatype Phase = Waiting | Running | Finished

  /** One call; `previous` is the tail it found, named by the call that left it. */
  datatype Call = Call(key: Key, previous: Option<nat>, phase: Phase)

  datatype State = State(calls: seq<Call>, tails: map<Key, nat>)

  predicate Linked(calls: seq<Call>) {
    forall i | 0 <= i < |calls| :: calls[i].previous.Some? ==> calls[i].previous.value < i
  }

  /** A tail resolves when the one before it has and its own call has finished. */
  predicate TailResolved(calls: seq<Call>, i: nat)
    requires Linked(calls) && i < |calls|
  {
    calls[i].phase.Finished? && (calls[i].previous.Some? ==> TailResolved(calls, calls[i].previous.value))
  }

  datatype Event = Begin(key: Key) | Wake(call: nat) | Finish(call: nat)

  function Step(s: State, e: Event): State
    requires Linked(s.calls)
  {
    match e
    case Begin(key) =>
      State(s.calls + [Call(key, if key in s.tails && s.tails[key] < |s.calls| then Some(s.tails[key]) else None, Waiting)],
            s.tails[key := |s.calls|])
    case Wake(i) =>
      if i < |s.calls| && s.calls[i].phase.Waiting?
         && (s.calls[i].previous.Some? ==> TailResolved(s.calls, s.calls[i].previous.value))
      then s.(calls := s.calls[i := s.calls[i].(phase := Running)]) else s
    case Finish(i) =>
      if i < |s.calls| && s.calls[i].phase.Running?
      then State(s.calls[i := s.calls[i].(phase := Finished)],
                 if s.calls[i].key in s.tails && s.tails[s.calls[i].key] == i then s.tails - {s.calls[i].key} else s.tails)
      else s
  }

  // ----- the invariant

  ghost predicate EarlierFinished(calls: seq<Call>, key: Key, i: nat)
    requires i <= |calls|
  {
    forall j | 0 <= j < i && calls[j].key == key :: calls[j].phase.Finished?
  }

  /** A call's predecessor is the nearest earlier call of its key; without one, all earlier ones had finished. */
  ghost predicate ChainOk(calls: seq<Call>) {
    forall i | 0 <= i < |calls| ::
      match calls[i].previous
      case None => EarlierFinished(calls, calls[i].key, i)
      case Some(p) => p < i && calls[p].key == calls[i].key && forall j | p < j < i :: calls[j].key != calls[i].key
  }

  /** A call that has begun to run was preceded by finished calls of its key only. */
  ghost predicate TurnsOk(calls: seq<Call>) {
    forall i | 0 <= i < |calls| && !calls[i].phase.Waiting? :: EarlierFinished(calls, calls[i].key, i)
  }

  /** The map holds the last call of each key that has not finished, and no other key. */
  ghost predicate TailsOk(s: State) {
    && (forall key | key in s.tails ::
          s.tails[key] < |s.calls| && s.calls[s.tails[key]].key == key && !s.calls[s.tails[key]].phase.Finished?
          && forall j | s.tails[key] < j < |s.calls| :: s.calls[j].key != key)
    && (forall i | 0 <= i < |s.calls| && !s.calls[i].phase.Finished? :: s.calls[i].key in s.tails)
  }

  ghost predicate Inv(s: State) { Linked(s.calls) && ChainOk(s.calls) && TurnsOk(s.calls) && TailsOk(s) }

  lemma {:induction false} ResolvedMeans(calls: seq<Call>, i: nat)
    requires Linked(calls) && ChainOk(calls) && i < |calls| && TailResolved(calls, i)
    ensures EarlierFinished(calls, calls[i].key, i + 1)
  {
    if calls[i].previous.Some? {
      ResolvedMeans(calls, calls[i].previous.value);
    }
  }

  function Moved(calls: seq<Call>, i: nat, phase: Phase): seq<Call>
    requires i < |calls|
  {
    calls[i := calls[i].(phase := phase)]
  }

  lemma MovedChain(calls: seq<Call>, i: nat, phase: Phase)
    requires Linked(calls) && ChainOk(calls) && i < |calls| && !calls[i].phase.Finished?
    ensures Linked(Moved(calls, i, phase)) && ChainOk(Moved(calls, i, phase))
  {
    var moved := Moved(calls, i, phase);
    forall k | 0 <= k < |moved| && moved[k].previous.None? ensures EarlierFinished(moved, moved[k].key, k) {
      assert EarlierFinished(calls, calls[k].key, k);
    }
  }

  lemma MovedTurns(calls: seq<Call>, i: nat, phase: Phase)
    requires TurnsOk(calls) && i < |calls| && !calls[i].phase.Finished?
    requires !phase.Waiting? ==> EarlierFinished(calls, calls[i].key, i)
    ensures TurnsOk(Moved(calls, i, phase))
  {
    var moved := Moved(calls, i, phase);
    forall k | 0 <= k < |moved| && !moved[k].phase.Waiting? ensures EarlierFinished(moved, moved[k].key, k) {
      assert EarlierFinished(calls, calls[k].key, k);
    }
  }

  lemma BeginTails(s: State, key: Key)
    requires Linked(s.calls) && TailsOk(s)
    ensures TailsOk(Step(s, Begin(key)))
  {
    var t := Step(s, Begin(key));
    forall k | k in t.tails && k != key ensures forall j | t.tails[k] < j < |t.calls| :: t.calls[j].key != k {}
  }

  lemma BeginChain(s: State, key: Key)
    requires Linked(s.calls) && ChainOk(s.calls) && TailsOk(s)
    ensures Linked(Step(s, Begin(key)).calls) && ChainOk(Step(s, Begin(key)).calls)
  {
    var n, t := |s.calls|, Step(s, Begin(key));
    forall i | 0 <= i < n && t.calls[i].previous.None? ensures EarlierFinished(t.calls, t.calls[i].key, i) {
      assert EarlierFinished(s.calls, s.calls[i].key, i);
    }
    if key !in s.tails {
      assert EarlierFinished(t.calls, key, n);
    }
  }

  lemma BeginKeeps(s: State, key: Key)
    requires Inv(s)
    ensures Inv(Step(s, Begin(key)))
  {
    hide ChainOk, TailsOk;
    BeginChain(s, key);
    BeginTails(s, key);
    var t := Step(s, Begin(key));
    forall k | 0 <= k < |t.calls| && !t.calls[k].phase.Waiting? ensures EarlierFinished(t.calls, t.calls[k].key, k) {
      assert EarlierFinished(s.calls, s.calls[k].key, k);
    }
  }

  lemma WakeKeeps(s: State, i: nat)
    requires Inv(s)
    ensures Inv(Step(s, Wake(i)))
  {
    hide TurnsOk;
    if i < |s.calls| && s.calls[i].phase.Waiting?
       && (s.calls[i].previous.Some? ==> TailResolved(s.calls, s.calls[i].previous.value)) {
      if s.calls[i].previous.Some? {
        ResolvedMeans(s.calls, s.calls[i].previous.value);
      }
      assert EarlierFinished(s.calls, s.calls[i].key, i);
      MovedChain(s.calls, i, Running);
      MovedTurns(s.calls, i, Running);
      WakeTails(s, i);
      hide ChainOk, TailsOk;
    }
  }

  lemma WakeTails(s: State, i: nat)
    requires TailsOk(s) && i < |s.calls| && s.calls[i].phase.Waiting?
    ensures TailsOk(s.(calls := Moved(s.calls, i, Running)))
  {}

  lemma FinishTails(s: State, i: nat)
    requires Linked(s.calls) && TailsOk(s) && i < |s.calls| && s.calls[i].phase.Running?
    requires EarlierFinished(s.calls, s.calls[i].key, i)
    ensures TailsOk(Step(s, Finish(i)))
  {
    var t, key := Step(s, Finish(i)), s.calls[i].key;
    assert key in s.tails;
    forall k | 0 <= k < |t.calls| && !t.calls[k].phase.Finished? ensures t.calls[k].key in t.tails {
      assert !s.calls[k].phase.Finished? && s.calls[k].key in s.tails;
    }
  }

  lemma FinishKeeps(s: State, i: nat)
    requires Inv(s)
    ensures Inv(Step(s, Finish(i)))
  {
    hide ChainOk, TailsOk;
    if i < |s.calls| && s.calls[i].phase.Running? {
      assert EarlierFinished(s.calls, s.calls[i].key, i);
      MovedChain(s.calls, i, Finished);
      MovedTurns(s.calls, i, Finished);
      FinishTails(s, i);
      FinishEarlier(s, i);
    }
  }

  lemma FinishEarlier(s: State, i: nat)
    requires Linked(s.calls) && i < |s.calls| && s.calls[i].phase.Running?
    ensures Step(s, Finish(i)).calls == Moved(s.calls, i, Finished)
  {}

  function Run(events: seq<Event>): (s: State)
    ensures Linked(s.calls)
  {
    if events == [] then State([], map[])
    else
      var before := Run(events[..|events| - 1]);
      assert Linked(Step(before, events[|events| - 1]).calls);
      Step(before, events[|events| - 1])
  }

  lemma {:induction false} AlwaysInv(events: seq<Event>)
    ensures Inv(Run(events))
    decreases |events|
  {
    hide Inv, Step;
    if events == [] {
      NothingYet();
    } else {
      AlwaysInv(events[..|events| - 1]);
      var s, e := Run(events[..|events| - 1]), events[|events| - 1];
      match e
      case Begin(key) => BeginKeeps(s, key);
      case Wake(i) => WakeKeeps(s, i);
      case Finish(i) => FinishKeeps(s, i);
    }
  }

  lemma NothingYet()
    ensures Inv(Run([]))
  {}

  /** In every run: removals under one key run one at a time and in the order they were called, and the map names
      exactly the keys that still have a removal to finish. */
  lemma OneAtATime(events: seq<Event>)
    ensures var calls := Run(events).calls;
            && (forall i, j | 0 <= j < i < |calls| && calls[i].key == calls[j].key && !calls[i].phase.Waiting? ::
                  calls[j].phase.Finished?)
            && (forall key :: key in Run(events).tails <==> exists i :: 0 <= i < |calls| && calls[i].key == key && !calls[i].phase.Finished?)
  {
    hide Run;
    AlwaysInv(events);
  }

  /** Nobody waits for another key: the first unfinished call of a key can run. */
  lemma {:induction false} FirstMayRun(events: seq<Event>, i: nat)
    requires var calls := Run(events).calls; i < |calls| && calls[i].phase.Waiting? && EarlierFinished(calls, calls[i].key, i)
    ensures Step(Run(events), Wake(i)).calls[i].phase.Running?
  {
    hide Run;
    AlwaysInv(events);
    var calls := Run(events).calls;
    if calls[i].previous.Some? {
      FinishedResolved(calls, calls[i].previous.value);
    }
  }

  lemma {:induction false} FinishedResolved(calls: seq<Call>, i: nat)
    requires Linked(calls) && ChainOk(calls) && i < |calls| && EarlierFinished(calls, calls[i].key, i + 1)
    ensures TailResolved(calls, i)
  {
    if calls[i].previous.Some? {
      FinishedResolved(calls, calls[i].previous.value);
    }
  }

  /** The map of tails and the suspended calls. */
  class RemovalTails {
    var removalTails: map<Key, nat>
    var calls: seq<Call>

    function Now(): State
      reads this
    {
      State(calls, removalTails)
    }

    constructor ()
      ensures Inv(Now()) && Now() == Run([])
    {
      removalTails, calls := map[], [];
      new;
      NothingYet();
    }

    /** `runRemovalExclusive` up to its await: leave a tail, remember the one found. */
    method Enter(key: Key) returns (call: nat)
      requires Inv(Now())
      modifies this
      ensures Inv(Now()) && call == |old(calls)| && Now() == Step(old(Now()), Begin(key))
      ensures |calls| == call + 1 && calls[..call] == old(calls) && calls[call].key == key && calls[call].phase.Waiting?
    {
      BeginKeeps(Now(), key);
      hide Inv;
      call := |calls|;
      var previous := if key in removalTails && removalTails[key] < |calls| then Some(removalTails[key]) else None;
      calls := calls + [Call(key, previous, Waiting)];
      removalTails := removalTails[key := call];
    }

    /** The tail awaited has resolved: the removal runs. */
    method Resume(call: nat)
      requires Inv(Now()) && call < |calls| && calls[call].phase.Waiting?
      requires calls[call].previous.Some? ==> TailResolved(calls, calls[call].previous.value)
      modifies this`calls
      ensures Inv(Now()) && Now() == Step(old(Now()), Wake(call))
      ensures EarlierFinished(calls, calls[call].key, call)
      ensures calls == old(calls)[call := old(calls)[call].(phase := Running)]
    {
      WakeKeeps(Now(), call);
      calls := calls[call := calls[call].(phase := Running)];
    }

    /** The `finally` block: open the gate, and take the own tail away when nobody came after. */
    method Leave(call: nat)
      requires Inv(Now()) && call < |calls| && calls[call].phase.Running?
      modifies this
      ensures Inv(Now()) && Now() == Step(old(Now()), Finish(call))
      ensures calls == old(calls)[call := old(calls)[call].(phase := Finished)]
    {
      FinishKeeps(Now(), call);
      hide Inv;
      var key := calls[call].key;
      calls := calls[call := calls[call].(phase := Finished)];
      if key in removalTails && removalTails[key] == call {
        removalTails := removalTails - {key};
      }
    }
  }
}
