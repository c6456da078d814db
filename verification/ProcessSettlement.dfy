/** How one supervised Git process settles: stream chunks, chunk callbacks, the input pump, termination and the
    child's own end arrive in any order. */
module ProcessSettlement {
  import opened Common

  datatype Code = Cancelled | Timeout | OutputLimit | GitUnavailable | ProcessFailed | Failed

  datatype Rejection = Coded(code: Code) | InputFailure

  datatype Outcome = Resolved(output: Bytes) | Rejected(error: Rejection)

  /** `streamLimit` is present when stdout goes to a callback; `input` says whether there is an input stream. */
  datatype Options = Options(input: bool, streamLimit: Option<nat>, capture: bool, outputMax: nat, accepted: int -> bool,
                             failureCode: Code)

  /** The input pump: reading, awaiting the iterator's return after an abort, or over. */
  datatype Pump = Reading | Containing | Over

  /** The promise chain of chunk callbacks: those not yet started, and the one under way. `stdout` and `exit` record
      what the child did; `started` which chunks were handed to the callback. */
  datatype State = State(
    options: Options, termination: Option<Code>, outputBytes: nat, pending: int, pump: Pump, inputFailed: bool,
    streamedBytes: nat, childClosed: bool, successfulClose: bool, outcome: Option<Outcome>, captured: seq<Bytes>,
    waiting: seq<Bytes>, running: bool, stdout: seq<Bytes>, stderrBytes: nat, started: seq<Bytes>, exit: Option<int>)

  datatype Event =
    | Stdout(chunk: Bytes) | Stderr(size: nat)
    | CallbackTurn | CallbackEnds(fails: bool)
    | InputEnds(fails: bool) | InputContained
    | Terminate(code: Code)
    | ChildError | ChildClose(exitCode: Option<int>)

  function Concat(chunks: seq<Bytes>): Bytes {
    if chunks == [] then [] else Concat(chunks[..|chunks| - 1]) + chunks[|chunks| - 1]
  }

  function Settle(s: State, outcome: Outcome): State {
    if s.outcome.Some? then s else s.(outcome := Some(outcome))
  }

  /** `settleSuccessfulClose`: it does not look at the termination code. */
  function SettleSuccess(s: State): State {
    if s.successfulClose && s.pending == 0 && s.pump.Over? then Settle(s, Resolved(Concat(s.captured))) else s
  }

  function SettleTerminated(s: State): State {
    if s.termination.Some? && s.childClosed && s.pending == 0 && s.pump.Over?
    then Settle(s, Rejected(if s.inputFailed then InputFailure else Coded(s.termination.value)))
    else s
  }

  function Terminated(s: State, code: Code): State {
    if s.outcome.Some? || s.termination.Some? then s else SettleTerminated(s.(termination := Some(code)))
  }

  /** `countOutput`. */
  function Counted(s: State, size: nat, chunk: Option<Bytes>): State {
    var t := s.(outputBytes := s.outputBytes + size);
    var u := if chunk.Some? && s.options.capture && t.outputBytes <= s.options.outputMax
             then t.(captured := t.captured + [chunk.value]) else t;
    if u.outputBytes > s.options.outputMax then Terminated(u, OutputLimit) else u
  }

  /** The pump's `finally`. */
  function PumpOver(s: State): State { SettleTerminated(SettleSuccess(s.(pump := Over))) }

  /** A chunk's turn is over. */
  function TurnDone(s: State): State {
    var t := s.(pending := s.pending - 1, running := false);
    if t.termination.None? then SettleSuccess(t) else SettleTerminated(t)
  }

  /** No output follows the close of the child. An event that cannot happen changes nothing. */
  function Step(s: State, e: Event): State {
    match e
    case Stdout(chunk) =>
      if s.childClosed then s
      else
        var t := s.(stdout := s.stdout + [chunk]);
        if s.options.streamLimit.None? then Counted(t, |chunk|, Some(chunk))
        else
          var u := t.(streamedBytes := s.streamedBytes + |chunk|);
          if u.streamedBytes > s.options.streamLimit.value then Terminated(u, OutputLimit)
          else u.(pending := s.pending + 1, waiting := s.waiting + [chunk])
    case Stderr(size) =>
      if s.childClosed then s else Counted(s.(stderrBytes := s.stderrBytes + size), size, None)
    case CallbackTurn =>
      if s.running || s.waiting == [] then s
      else
        var t := s.(waiting := s.waiting[1..]);
        if s.termination.Some? then TurnDone(t) else t.(running := true, started := s.started + [s.waiting[0]])
    case CallbackEnds(fails) =>
      if !s.running then s
      else if !fails then TurnDone(s)
      else SettleTerminated(Terminated(s.(pending := s.pending - 1, running := false), s.options.failureCode))
    case InputEnds(fails) =>
      if !s.options.input || !s.pump.Reading? then s
      else
        var t := if fails
                 then Terminated(s.(inputFailed := true), if s.termination.Some? then s.termination.value else s.options.failureCode)
                 else s;
        if t.termination.Some? then t.(pump := Containing) else PumpOver(t)
    case InputContained => if s.pump.Containing? then PumpOver(s) else s
    case Terminate(code) => Terminated(s, code)
    case ChildError => SettleTerminated(Terminated(s.(childClosed := true), GitUnavailable))
    case ChildClose(code) =>
      if s.exit.Some? then s
      else
        var t := s.(childClosed := true, exit := Some(if code.Some? then code.value else -1));
        if s.termination.Some? then SettleTerminated(t)
        else if code.None? then SettleTerminated(Terminated(t, ProcessFailed))
        else if s.options.accepted(code.value) then SettleSuccess(t.(successfulClose := true))
        else SettleTerminated(Terminated(t, s.options.failureCode))
  }

  function Initial(options: Options): State {
    State(options, None, 0, 0, if options.input then Reading else Over, false, 0, false, false, None, [], [], false, [], 0,
          [], None)
  }

  function Run(options: Options, events: seq<Event>): State {
    if events == [] then Initial(options) else Step(Run(options, events[..|events| - 1]), events[|events| - 1])
  }

  // ----- the invariant

  function Sizes(chunks: seq<Bytes>): nat { |Concat(chunks)| }

  /** Pending callbacks are those waiting and the one running; chunks are started in order. */
  ghost predicate CallbacksOk(s: State) {
    && s.pending == |s.waiting| + (if s.running then 1 else 0)
    && (s.termination.None? && s.options.streamLimit.Some? ==> s.started + s.waiting == s.stdout)
    && (s.options.streamLimit.Some? ==> s.started <= s.stdout)
    && (s.options.streamLimit.None? ==> s.started == [] && s.waiting == [] && !s.running)
    && (s.running ==> s.started != [])
  }

  /** Until something terminates the run, all output is counted, within the cap, and captured where asked. */
  ghost predicate OutputOk(s: State) {
    s.termination.None? || s.successfulClose ==>
      && s.outputBytes == s.stderrBytes + (if s.options.streamLimit.None? then Sizes(s.stdout) else 0)
      && s.streamedBytes == (if s.options.streamLimit.Some? then Sizes(s.stdout) else 0)
      && s.outputBytes <= s.options.outputMax
      && (s.options.streamLimit.Some? ==> Sizes(s.stdout) <= s.options.streamLimit.value)
      && s.captured == if s.options.capture && s.options.streamLimit.None? then s.stdout else []
  }

  /** What holds even between a change and the settling that follows it. */
  ghost predicate BaseOk(s: State) {
    && (!s.options.input ==> s.pump.Over?)
    && (s.pump.Containing? ==> s.termination.Some?)
    && (s.successfulClose ==> s.childClosed && s.exit.Some? && s.options.accepted(s.exit.value))
    && (s.exit.Some? ==> s.childClosed)
    && (s.outcome.Some? ==> s.childClosed && s.pending == 0 && s.pump.Over?)
    && (s.outcome.Some? && s.outcome.value.Resolved? ==> s.successfulClose && s.outcome.value.output == Concat(s.captured))
    && (s.outcome.Some? && s.outcome.value.Rejected? ==> s.termination.Some?)
    && (s.outcome.Some? && s.outcome.value.Resolved? && !s.options.input ==> s.termination.None?)
  }

  /** Settled as soon as the child is gone, no callback is pending and the pump is over. */
  ghost predicate PromptOk(s: State) {
    && (s.childClosed ==> s.successfulClose || s.termination.Some? || s.outcome.Some?)
    && (s.childClosed && s.pending == 0 && s.pump.Over? ==> s.outcome.Some?)
  }

  ghost predicate Inv(s: State) { CallbacksOk(s) && OutputOk(s) && BaseOk(s) && PromptOk(s) }

  /** Everything stays but the outcome, which stays once it is there. */
  ghost predicate OnlyOutcome(s: State, t: State) {
    t == s.(outcome := t.outcome) && (s.outcome.Some? ==> t.outcome == s.outcome)
  }

  lemma SuccessSettles(s: State)
    requires BaseOk(s) && (!s.options.input ==> s.termination.None?)
    ensures var t := SettleSuccess(s);
            && BaseOk(t) && OnlyOutcome(s, t)
            && (s.successfulClose && s.pending == 0 && s.pump.Over? ==> t.outcome.Some?)
  {
    hide Concat;
  }

  lemma TerminatedSettles(s: State)
    requires BaseOk(s)
    ensures var t := SettleTerminated(s);
            && BaseOk(t) && OnlyOutcome(s, t)
            && (s.termination.Some? && s.childClosed && s.pending == 0 && s.pump.Over? ==> t.outcome.Some?)
  {
    hide Concat;
  }

  /** Terminating: at most the code and the outcome change. */
  lemma TerminationKeeps(s: State, code: Code)
    requires BaseOk(s)
    ensures var t := Terminated(s, code);
            && BaseOk(t) && t == s.(outcome := t.outcome, termination := t.termination)
            && (s.outcome.Some? ==> t.outcome == s.outcome) && (t.termination.Some? || t.outcome.Some?)
            && (s.termination.Some? ==> t.termination == s.termination)
  {
    hide Concat, SettleTerminated;
    if s.outcome.None? && s.termination.None? {
      TerminatedSettles(s.(termination := Some(code)));
    }
  }

  /** The flow of output and callbacks, through a termination. */
  ghost predicate FlowOk(s: State) { CallbacksOk(s) && OutputOk(s) }

  lemma FlowThrough(s: State, t: State)
    requires FlowOk(s) && t == s.(outcome := t.outcome, termination := t.termination)
    requires s.termination.Some? ==> t.termination.Some?
    ensures FlowOk(t)
  {
    hide Concat;
  }

  /** Neither the pump nor the child's end matters to the flow. */
  lemma FlowAside(s: State, t: State)
    requires FlowOk(s)
    requires t == s.(pump := t.pump, inputFailed := t.inputFailed, childClosed := t.childClosed, exit := t.exit,
                     successfulClose := t.successfulClose)
    requires t.successfulClose ==> s.successfulClose || s.termination.None?
    ensures FlowOk(t)
  {
    hide Concat;
  }

  ghost predicate Kept(s: State, t: State) {
    && Inv(t) && t.options == s.options && (s.outcome.Some? ==> t.outcome == s.outcome)
    && (s.termination.Some? ==> t.started == s.started && t.termination == s.termination)
  }

  lemma NothingConcat()
    ensures Concat([]) == []
  {}

  lemma ConcatMore(chunks: seq<Bytes>, chunk: Bytes)
    ensures Concat(chunks + [chunk]) == Concat(chunks) + chunk
  {
    assert (chunks + [chunk])[..|chunks|] == chunks;
  }

  /** More output, counted; beyond the cap the run is terminated. */
  lemma CountKeeps(s: State, size: nat, chunk: Option<Bytes>)
    requires Inv(s) && !s.childClosed
    requires chunk.Some? ==> s.options.streamLimit.None? && size == |chunk.value|
    ensures var was := if chunk.Some? then s.(stdout := s.stdout + [chunk.value]) else s.(stderrBytes := s.stderrBytes + size);
            Kept(s, Counted(was, size, chunk))
  {
    hide Concat, Terminated;
    var was := if chunk.Some? then s.(stdout := s.stdout + [chunk.value]) else s.(stderrBytes := s.stderrBytes + size);
    if chunk.Some? { ConcatMore(s.stdout, chunk.value); }
    var t := was.(outputBytes := was.outputBytes + size);
    var u := if chunk.Some? && s.options.capture && t.outputBytes <= s.options.outputMax
             then t.(captured := t.captured + [chunk.value]) else t;
    assert s.outcome.None?;
    TerminationKeeps(u, OutputLimit);
    var v := Counted(was, size, chunk);
    assert CallbacksOk(v);
    assert OutputOk(v);
  }

  lemma StreamKeeps(s: State, chunk: Bytes)
    requires Inv(s) && !s.childClosed && s.options.streamLimit.Some?
    ensures Kept(s, Step(s, Stdout(chunk)))
  {
    hide Concat, Terminated;
    ConcatMore(s.stdout, chunk);
    var u := s.(stdout := s.stdout + [chunk], streamedBytes := s.streamedBytes + |chunk|);
    assert s.outcome.None?;
    TerminationKeeps(u, OutputLimit);
    var v := Step(s, Stdout(chunk));
    assert s.started + (s.waiting + [chunk]) == (s.started + s.waiting) + [chunk];
    assert CallbacksOk(v);
    assert OutputOk(v);
  }

  lemma TurnKeeps(s: State, t: State)
    requires BaseOk(t) && FlowOk(t.(pending := t.pending - 1, running := false)) && t.pending > 0
    requires t.childClosed ==> t.successfulClose || t.termination.Some?
    ensures var u := TurnDone(t);
            && BaseOk(u) && PromptOk(u) && FlowOk(u) && u == t.(pending := t.pending - 1, running := false, outcome := u.outcome)
            && t.outcome.None?
  {
    hide Concat, SettleSuccess, SettleTerminated, FlowOk;
    var d := t.(pending := t.pending - 1, running := false);
    if d.termination.None? {
      SuccessSettles(d);
      FlowThrough(d, SettleSuccess(d));
    } else {
      TerminatedSettles(d);
      FlowThrough(d, SettleTerminated(d));
    }
  }

  lemma CallbackTurnKeeps(s: State)
    requires Inv(s)
    ensures Kept(s, Step(s, CallbackTurn))
  {
    hide Concat, TurnDone;
    if !s.running && s.waiting != [] {
      var t := s.(waiting := s.waiting[1..]);
      if s.termination.Some? {
        TurnKeeps(s, t);
      } else {
        assert s.started + [s.waiting[0]] + s.waiting[1..] == s.started + s.waiting;
      }
    }
  }

  lemma CallbackEndsKeeps(s: State, fails: bool)
    requires Inv(s)
    ensures Kept(s, Step(s, CallbackEnds(fails)))
  {
    hide Concat, TurnDone, Terminated, SettleTerminated;
    if s.running {
      if !fails {
        TurnKeeps(s, s);
      } else {
        var d := s.(pending := s.pending - 1, running := false);
        assert FlowOk(d);
        TerminationKeeps(d, s.options.failureCode);
        var t := Terminated(d, s.options.failureCode);
        FlowThrough(d, t);
        TerminatedSettles(t);
        FlowThrough(t, SettleTerminated(t));
      }
    }
  }

  lemma PumpOverKeeps(s: State)
    requires BaseOk(s) && FlowOk(s) && s.options.input && !s.pump.Over?
    requires s.childClosed ==> s.successfulClose || s.termination.Some?
    ensures var t := PumpOver(s); BaseOk(t) && FlowOk(t) && PromptOk(t) && t == s.(pump := Over, outcome := t.outcome)
  {
    hide Concat, SettleSuccess, SettleTerminated, CallbacksOk, OutputOk, FlowOk;
    var t := s.(pump := Over);
    FlowAside(s, t);
    SuccessSettles(t);
    var u := SettleSuccess(t);
    FlowThrough(t, u);
    TerminatedSettles(u);
    FlowThrough(u, SettleTerminated(u));
  }

  lemma InputKeeps(s: State, fails: bool)
    requires Inv(s) && s.options.input && s.pump.Reading?
    ensures Kept(s, Step(s, InputEnds(fails)))
  {
    hide Concat, PumpOver, Terminated, CallbacksOk, OutputOk;
    assert s.outcome.None?;
    var f := s.(inputFailed := true);
    FlowAside(s, f);
    var code := if s.termination.Some? then s.termination.value else s.options.failureCode;
    TerminationKeeps(f, code);
    StillOpen(f, code);
    var t := if fails then Terminated(f, code) else s;
    if fails { FlowThrough(f, t); }
    if t.termination.Some? {
      FlowAside(t, t.(pump := Containing));
    } else {
      PumpOverKeeps(t);
    }
  }

  /** While the pump runs, terminating does not settle. */
  lemma StillOpen(s: State, code: Code)
    requires !s.pump.Over? && s.outcome.None?
    ensures Terminated(s, code).outcome.None? && Terminated(s, code).termination.Some?
  {}

  lemma ContainedKeeps(s: State)
    requires Inv(s) && s.pump.Containing?
    ensures Kept(s, Step(s, InputContained))
  {
    hide Concat, PumpOver;
    assert s.options.input && s.outcome.None?;
    PumpOverKeeps(s);
  }

  lemma TerminateKeeps(s: State, code: Code)
    requires Inv(s)
    ensures Kept(s, Step(s, Terminate(code)))
  {
    hide Concat, Terminated;
    TerminationKeeps(s, code);
    FlowThrough(s, Terminated(s, code));
    hide CallbacksOk, OutputOk;
  }

  /** The child is gone and the run is terminated for it. */
  lemma GoneKeeps(s: State, t: State, code: Code)
    requires BaseOk(t) && FlowOk(t) && t.childClosed
    ensures var u := SettleTerminated(Terminated(t, code));
            && BaseOk(u) && FlowOk(u) && PromptOk(u) && u == t.(outcome := u.outcome, termination := u.termination)
            && (t.outcome.Some? ==> u.outcome == t.outcome) && (t.termination.Some? ==> u.termination == t.termination)
  {
    hide Concat, Terminated, SettleTerminated, CallbacksOk, OutputOk, FlowOk;
    TerminationKeeps(t, code);
    var d := Terminated(t, code);
    FlowThrough(t, d);
    TerminatedSettles(d);
    FlowThrough(d, SettleTerminated(d));
  }

  lemma ErrorKeeps(s: State)
    requires Inv(s)
    ensures Kept(s, Step(s, ChildError))
  {
    hide Concat, Terminated, SettleTerminated, CallbacksOk, OutputOk;
    var t := s.(childClosed := true);
    FlowAside(s, t);
    GoneKeeps(s, t, GitUnavailable);
  }

  lemma CloseKeeps(s: State, code: Option<int>)
    requires Inv(s) && s.exit.None?
    ensures Kept(s, Step(s, ChildClose(code)))
  {
    hide Concat, Terminated, SettleTerminated, SettleSuccess, CallbacksOk, OutputOk;
    var t := s.(childClosed := true, exit := Some(if code.Some? then code.value else -1));
    FlowAside(s, t);
    if s.termination.Some? {
      TerminatedSettles(t);
      FlowThrough(t, SettleTerminated(t));
    } else if code.None? {
      GoneKeeps(s, t, ProcessFailed);
    } else if s.options.accepted(code.value) {
      var u := t.(successfulClose := true);
      FlowAside(s, u);
      SuccessSettles(u);
      FlowThrough(u, SettleSuccess(u));
    } else {
      GoneKeeps(s, t, s.options.failureCode);
    }
  }

  /** Main step: whatever arrives next, the invariant holds, a settled run stays as it settled, and after
      termination no further callback starts. */
  lemma StepKeeps(s: State, e: Event)
    requires Inv(s)
    ensures Kept(s, Step(s, e))
  {
    hide Inv, Counted, Terminated, TurnDone, PumpOver, SettleTerminated, SettleSuccess;
    match e
    case Stdout(chunk) =>
      if !s.childClosed {
        if s.options.streamLimit.None? { CountKeeps(s, |chunk|, Some(chunk)); } else { StreamKeeps(s, chunk); }
      }
    case Stderr(size) => if !s.childClosed { CountKeeps(s, size, None); }
    case CallbackTurn => CallbackTurnKeeps(s);
    case CallbackEnds(fails) => CallbackEndsKeeps(s, fails);
    case InputEnds(fails) => if s.options.input && s.pump.Reading? { InputKeeps(s, fails); }
    case InputContained => if s.pump.Containing? { ContainedKeeps(s); }
    case Terminate(code) => TerminateKeeps(s, code);
    case ChildError => ErrorKeeps(s);
    case ChildClose(code) => if s.exit.None? { CloseKeeps(s, code); }
  }

  lemma InitialInv(options: Options)
    ensures Inv(Initial(options))
  {}

  /** Main result: the invariant after any arrivals in any order. */
  lemma {:induction false} AlwaysInv(options: Options, events: seq<Event>)
    ensures Inv(Run(options, events)) && Run(options, events).options == options
    decreases |events|
  {
    hide Inv, Step;
    if events == [] {
      InitialInv(options);
    } else {
      AlwaysInv(options, events[..|events| - 1]);
      StepKeeps(Run(options, events[..|events| - 1]), events[|events| - 1]);
    }
  }

  // ----- what callers rely on

  /** A run settles at most once: whatever arrives later, the outcome stays. */
  lemma {:induction false} SettlesOnce(options: Options, events: seq<Event>, later: seq<Event>)
    requires Run(options, events).outcome.Some?
    ensures Run(options, events + later).outcome == Run(options, events).outcome
    decreases |later|
  {
    hide Inv, Run, Step;
    if later == [] {
      assert events + later == events;
    } else {
      var front, last := later[..|later| - 1], later[|later| - 1];
      SettlesOnce(options, events, front);
      AlwaysInv(options, events + front);
      StepKeeps(Run(options, events + front), last);
      RunMore(options, events + front, last);
      assert events + later == (events + front) + [last];
    }
  }

  lemma RunNone(options: Options)
    ensures Run(options, []) == Initial(options)
  {}

  lemma RunMore(options: Options, events: seq<Event>, e: Event)
    ensures Run(options, events + [e]) == Step(Run(options, events), e)
  {
    assert (events + [e])[..|events|] == events;
  }

  /** Success means an accepted exit code, no pending callback, a finished pump, output within the caps and, where
      captured, complete; and without an input stream that nothing terminated the run. */
  lemma SuccessMeans(options: Options, events: seq<Event>)
    requires var s := Run(options, events); s.outcome.Some? && s.outcome.value.Resolved?
    ensures var s := Run(options, events);
            && s.exit.Some? && options.accepted(s.exit.value) && s.pending == 0 && s.waiting == [] && !s.running && s.pump.Over?
            && (options.streamLimit.None? ==> Sizes(s.stdout) + s.stderrBytes <= options.outputMax)
            && (options.streamLimit.Some? ==> Sizes(s.stdout) <= options.streamLimit.value)
            && s.outcome.value.output == (if options.capture && options.streamLimit.None? then Concat(s.stdout) else [])
            && (options.streamLimit.Some? && s.termination.None? ==> s.started == s.stdout)
            && (!options.input ==> s.termination.None?)
  {
    hide Run, Concat;
    AlwaysInv(options, events);
    NothingConcat();
  }

  /** Chunks are handed to the callback one at a time and in order, and a run is settled as soon as the child is
      gone, no callback is pending and the pump is over. */
  lemma InOrderAndPrompt(options: Options, events: seq<Event>)
    ensures var s := Run(options, events);
            && (options.streamLimit.Some? ==> s.started <= s.stdout)
            && s.pending == |s.waiting| + (if s.running then 1 else 0)
            && (s.childClosed && s.pending == 0 && s.pump.Over? <==> s.outcome.Some?)
  {
    hide Run, Concat;
    AlwaysInv(options, events);
  }

  /** After a termination no callback starts, whatever arrives. */
  lemma {:induction false} NoneStartsAfter(options: Options, events: seq<Event>, later: seq<Event>)
    requires Run(options, events).termination.Some?
    ensures var s, t := Run(options, events), Run(options, events + later);
            t.started == s.started && t.termination == s.termination
    decreases |later|
  {
    hide Inv, Run, Step;
    if later == [] {
      assert events + later == events;
    } else {
      var front, last := later[..|later| - 1], later[|later| - 1];
      NoneStartsAfter(options, events, front);
      AlwaysInv(options, events + front);
      StepKeeps(Run(options, events + front), last);
      RunMore(options, events + front, last);
      assert events + later == (events + front) + [last];
    }
  }

  /** How a run settles, in the step that settles it: it resolves exactly when the child closed with an accepted
      code and either nothing terminated the run or the input pump is what finished last; otherwise it is rejected,
      with the input's own failure first and else the code that terminated it. */
  lemma SettlesHow(options: Options, events: seq<Event>, e: Event)
    requires Run(options, events).outcome.None? && Step(Run(options, events), e).outcome.Some?
    ensures var s := Run(options, events); var t := Step(s, e);
            t.outcome == Some(if t.successfulClose && (t.termination.None? || !s.pump.Over?) then Resolved(Concat(t.captured))
                              else Rejected(if t.inputFailed then InputFailure
                                            else Coded(if t.termination.Some? then t.termination.value else options.failureCode)))
    ensures var t := Step(Run(options, events), e); !t.successfulClose ==> t.termination.Some?
  {
    hide Run, Concat, CallbacksOk, OutputOk;
    AlwaysInv(options, events);
    var s := Run(options, events);
    StepKeeps(s, e);
    SettledBy(s, e);
    hide Step;
  }

  /** The outcome the settling step must give. */
  ghost predicate SettledRight(s: State, t: State) {
    t.outcome == Some(if t.successfulClose && (t.termination.None? || !s.pump.Over?) then Resolved(Concat(t.captured))
                      else Rejected(if t.inputFailed then InputFailure
                                    else Coded(if t.termination.Some? then t.termination.value else s.options.failureCode)))
  }

  lemma OutputSettles(s: State, e: Event)
    requires BaseOk(s) && s.outcome.None? && Step(s, e).outcome.Some? && (e.Stdout? || e.Stderr? || e.Terminate?)
    ensures SettledRight(s, Step(s, e))
  {
    hide Concat, SettleSuccess;
  }

  lemma CallbackSettles(s: State, e: Event)
    requires BaseOk(s) && s.outcome.None? && Step(s, e).outcome.Some? && (e.CallbackTurn? || e.CallbackEnds?)
    ensures SettledRight(s, Step(s, e))
  {
    hide Concat;
  }

  lemma InputSettles(s: State, e: Event)
    requires BaseOk(s) && s.outcome.None? && Step(s, e).outcome.Some? && (e.InputEnds? || e.InputContained?)
    ensures SettledRight(s, Step(s, e))
  {
    hide Concat;
  }

  /** The child is gone and the run is or was terminated: it is rejected with the first code. */
  lemma GoneSettles(s: State, t: State, code: Code)
    requires s.outcome.None? && t.outcome.None? && t.pump == s.pump && t.options == s.options && !t.successfulClose
    ensures var u := SettleTerminated(Terminated(t, code));
            u.outcome.Some? ==> SettledRight(s, u)
    ensures t.termination.Some? ==> var u := SettleTerminated(t); u.outcome.Some? ==> SettledRight(s, u)
  {
    hide Concat;
  }

  lemma ErrorSettles(s: State)
    requires BaseOk(s) && s.outcome.None? && Step(s, ChildError).outcome.Some?
    ensures SettledRight(s, Step(s, ChildError))
  {
    hide Concat;
  }

  lemma CloseSettles(s: State, code: Option<int>)
    requires BaseOk(s) && s.outcome.None? && Step(s, ChildClose(code)).outcome.Some?
    ensures SettledRight(s, Step(s, ChildClose(code)))
  {
    hide Concat, Terminated, SettleTerminated, SettledRight;
    var t := s.(childClosed := true, exit := Some(if code.Some? then code.value else -1));
    assert s.exit.None? ==> !s.successfulClose;
    if s.exit.None? && code.Some? && s.termination.None? && s.options.accepted(code.value) {
      CleanSettles(s, t.(successfulClose := true));
    } else if s.exit.None? {
      GoneSettles(s, t, if code.None? then ProcessFailed else s.options.failureCode);
    }
  }

  lemma CleanSettles(s: State, t: State)
    requires s.outcome.None? && t.outcome.None? && t.termination.None?
    ensures SettleSuccess(t).outcome.Some? ==> SettledRight(s, SettleSuccess(t))
  {
    hide Concat;
  }

  lemma SettledBy(s: State, e: Event)
    requires BaseOk(s) && s.outcome.None? && Step(s, e).outcome.Some?
    ensures SettledRight(s, Step(s, e))
  {
    hide Step, SettledRight, BaseOk;
    match e
    case Stdout(chunk) => OutputSettles(s, e);
    case Stderr(size) => OutputSettles(s, e);
    case Terminate(code) => OutputSettles(s, e);
    case CallbackTurn => CallbackSettles(s, e);
    case CallbackEnds(fails) => CallbackSettles(s, e);
    case InputEnds(fails) => InputSettles(s, e);
    case InputContained => InputSettles(s, e);
    case ChildError => ErrorSettles(s);
    case ChildClose(code) => CloseSettles(s, code);
  }

  /** Left unterminated, a run resolves with all its captured output once the child is gone and nothing is pending. */
  lemma UnterminatedResolves(options: Options, events: seq<Event>)
    requires var s := Run(options, events); s.termination.None? && s.childClosed && s.pending == 0 && s.pump.Over?
    ensures var s := Run(options, events);
            s.successfulClose
            && s.outcome == Some(Resolved(if options.capture && options.streamLimit.None? then Concat(s.stdout) else []))
  {
    hide Run, Concat;
    AlwaysInv(options, events);
    NothingConcat();
  }

  /** The code a run is terminated with is that of the first cause. */
  function Cause(s: State, e: Event): Option<Code> {
    match e
    case Stdout(chunk) =>
      if s.childClosed then None
      else if s.options.streamLimit.Some? then
        if s.streamedBytes + |chunk| > s.options.streamLimit.value then Some(OutputLimit) else None
      else if s.outputBytes + |chunk| > s.options.outputMax then Some(OutputLimit) else None
    case Stderr(size) => if !s.childClosed && s.outputBytes + size > s.options.outputMax then Some(OutputLimit) else None
    case CallbackEnds(fails) => if s.running && fails then Some(s.options.failureCode) else None
    case InputEnds(fails) => if s.options.input && s.pump.Reading? && fails then Some(s.options.failureCode) else None
    case Terminate(code) => Some(code)
    case ChildError => Some(GitUnavailable)
    case ChildClose(code) =>
      if s.exit.Some? then None
      else if code.None? then Some(ProcessFailed)
      else if s.options.accepted(code.value) then None else Some(s.options.failureCode)
    case _ => None
  }

  lemma FirstCause(options: Options, events: seq<Event>, e: Event)
    ensures var s := Run(options, events); var t := Step(s, e);
            t.termination == if s.termination.Some? || s.outcome.Some? then s.termination else Cause(s, e)
    ensures var s := Run(options, events); var t := Step(s, e);
            t.successfulClose <==>
              (s.successfulClose
               || (e.ChildClose? && s.exit.None? && s.termination.None? && e.exitCode.Some? && options.accepted(e.exitCode.value)))
  {
    hide Run, Concat, CallbacksOk, OutputOk;
    AlwaysInv(options, events);
    FirstCauseOf(Run(options, events), e);
  }

  /** Terminating and settling touch neither the close nor an earlier code. */
  lemma CodesKept()
    ensures forall s: State, code: Code ::
              Terminated(s, code).termination == (if s.outcome.Some? || s.termination.Some? then s.termination else Some(code))
              && Terminated(s, code).successfulClose == s.successfulClose
    ensures forall s: State :: SettleTerminated(s).termination == s.termination && SettleTerminated(s).successfulClose == s.successfulClose
    ensures forall s: State :: SettleSuccess(s).termination == s.termination && SettleSuccess(s).successfulClose == s.successfulClose
  {
    hide Concat;
  }

  /** What the step has done to the code and to the close. */
  ghost predicate CausedRight(s: State, t: State, e: Event) {
    && t.termination == (if s.termination.Some? || s.outcome.Some? then s.termination else Cause(s, e))
    && (t.successfulClose <==>
          (s.successfulClose
           || (e.ChildClose? && s.exit.None? && s.termination.None? && e.exitCode.Some? && s.options.accepted(e.exitCode.value))))
  }

  lemma OutputCause(s: State, e: Event)
    requires BaseOk(s) && (e.Stdout? || e.Stderr? || e.Terminate?)
    ensures CausedRight(s, Step(s, e), e)
  {
    hide Concat, Terminated;
    CodesKept();
  }

  lemma InnerCause(s: State, e: Event)
    requires BaseOk(s) && (e.CallbackTurn? || e.CallbackEnds? || e.InputEnds? || e.InputContained?)
    ensures CausedRight(s, Step(s, e), e)
  {
    hide Concat, Terminated, SettleTerminated, SettleSuccess;
    CodesKept();
  }

  lemma ChildCause(s: State, e: Event)
    requires BaseOk(s) && PromptOk(s) && (e.ChildError? || e.ChildClose?)
    ensures CausedRight(s, Step(s, e), e)
  {
    hide Concat, Terminated, SettleTerminated, SettleSuccess;
    CodesKept();
  }

  lemma FirstCauseOf(s: State, e: Event)
    requires BaseOk(s) && PromptOk(s)
    ensures CausedRight(s, Step(s, e), e)
  {
    hide Step, CausedRight, BaseOk, PromptOk;
    match e
    case Stdout(chunk) => OutputCause(s, e);
    case Stderr(size) => OutputCause(s, e);
    case Terminate(code) => OutputCause(s, e);
    case ChildError => ChildCause(s, e);
    case ChildClose(code) => ChildCause(s, e);
    case _ => InnerCause(s, e);
  }

  /** Exactly when a terminated run still resolves: its input pump finishes after a clean exit, with no callback
      pending. */
  lemma LateSuccess(options: Options, events: seq<Event>, e: Event)
    requires var s := Run(options, events); s.outcome.None? && s.termination.Some?
    ensures var s := Run(options, events); var t := Step(s, e);
            (t.outcome.Some? && t.outcome.value.Resolved?) <==>
              (e.InputContained? && s.pump.Containing? && s.successfulClose && s.pending == 0)
  {
    hide Run, Concat;
    AlwaysInv(options, events);
  }

  /** Such a run exists: the child exits cleanly, the run is cancelled, the pump notices and finishes. */
  lemma LateSuccessPossible(options: Options)
    requires options.input && options.accepted(0)
    ensures var s := Run(options, [ChildClose(Some(0)), Terminate(Cancelled), InputEnds(true), InputContained]);
            s.termination == Some(Cancelled) && s.outcome.Some? && s.outcome.value.Resolved?
  {
    hide Concat, Run;
    var a: seq<Event> := [ChildClose(Some(0))];
    RunMore(options, [], ChildClose(Some(0)));
    RunMore(options, a, Terminate(Cancelled));
    RunMore(options, a + [Terminate(Cancelled)], InputEnds(true));
    RunMore(options, a + [Terminate(Cancelled)] + [InputEnds(true)], InputContained);
    assert [] + [ChildClose(Some(0))] == a;
    assert a + [Terminate(Cancelled)] + [InputEnds(true)] + [InputContained]
           == [ChildClose(Some(0)), Terminate(Cancelled), InputEnds(true), InputContained];
    RunNone(options);
  }

  // ----- the handlers as the source writes them

  class GitProcess {
    const options: Options
    var terminationCode: Option<Code>
    var outputBytes: nat
    var pendingStreamWrites: int
    var pump: Pump
    var inputFailed: bool
    var streamedStdoutBytes: nat
    var childClosed: bool
    var successfulClose: bool
    var settled: Option<Outcome>
    var capturedOutput: seq<Bytes>
    var streamQueue: seq<Bytes>
    var running: bool
    ghost var stdout: seq<Bytes>
    ghost var stderrBytes: nat
    ghost var started: seq<Bytes>
    ghost var exit: Option<int>

    ghost function Now(): State
      reads this
    {
      State(options, terminationCode, outputBytes, pendingStreamWrites, pump, inputFailed, streamedStdoutBytes, childClosed,
            successfulClose, settled, capturedOutput, streamQueue, running, stdout, stderrBytes, started, exit)
    }

    ghost predicate Valid()
      reads this
    {
      Inv(Now())
    }

    constructor (options: Options)
      ensures Valid() && Now() == Initial(options)
    {
      hide Inv;
      this.options := options;
      terminationCode, outputBytes, pendingStreamWrites, pump := None, 0, 0, if options.input then Reading else Over;
      inputFailed, streamedStdoutBytes, childClosed, successfulClose, settled := false, 0, false, false, None;
      capturedOutput, streamQueue, running, stdout, stderrBytes, started, exit := [], [], false, [], 0, [], None;
      new;
      assert Now() == Initial(options);
      InitialInv(options);
    }

    method SettleSuccessfulClose()
      modifies this`settled
      ensures Now() == SettleSuccess(old(Now()))
    {
      if successfulClose && pendingStreamWrites == 0 && pump.Over? && settled.None? {
        settled := Some(Resolved(Concat(capturedOutput)));
      }
    }

    method SettleWhenTerminated()
      modifies this`settled
      ensures Now() == SettleTerminated(old(Now()))
    {
      if terminationCode.Some? && childClosed && pendingStreamWrites == 0 && pump.Over? && settled.None? {
        settled := Some(Rejected(if inputFailed then InputFailure else Coded(terminationCode.value)));
      }
    }

    method TerminateRun(code: Code)
      modifies this`settled, this`terminationCode
      ensures Now() == Terminated(old(Now()), code)
    {
      hide SettleTerminated;
      if settled.Some? || terminationCode.Some? {
        return;
      }
      terminationCode := Some(code);
      SettleWhenTerminated();
    }

    method CountOutput(size: nat, chunk: Option<Bytes>)
      modifies this`settled, this`terminationCode, this`outputBytes, this`capturedOutput
      ensures Now() == Counted(old(Now()), size, chunk)
    {
      hide Terminated;
      outputBytes := outputBytes + size;
      if chunk.Some? && options.capture && outputBytes <= options.outputMax {
        capturedOutput := capturedOutput + [chunk.value];
      }
      if outputBytes > options.outputMax {
        TerminateRun(OutputLimit);
      }
    }

    method OnStdout(chunk: Bytes)
      requires Valid() && !childClosed
      modifies this
      ensures Valid() && Now() == Step(old(Now()), Stdout(chunk))
    {
      hide Inv, Counted, Terminated;
      StepKeeps(Now(), Stdout(chunk));
      stdout := stdout + [chunk];
      if options.streamLimit.None? {
        CountOutput(|chunk|, Some(chunk));
        return;
      }
      streamedStdoutBytes := streamedStdoutBytes + |chunk|;
      if streamedStdoutBytes > options.streamLimit.value {
        TerminateRun(OutputLimit);
        return;
      }
      pendingStreamWrites := pendingStreamWrites + 1;
      streamQueue := streamQueue + [chunk];
    }

    method OnStderr(size: nat)
      requires Valid() && !childClosed
      modifies this
      ensures Valid() && Now() == Step(old(Now()), Stderr(size))
    {
      hide Inv, Counted;
      StepKeeps(Now(), Stderr(size));
      stderrBytes := stderrBytes + size;
      CountOutput(size, None);
    }

    /** The chain reaches the next chunk: hand it over, unless the run was terminated. */
    method NextTurn()
      requires Valid() && !running && streamQueue != []
      modifies this
      ensures Valid() && Now() == Step(old(Now()), CallbackTurn)
    {
      hide Inv, TurnDone;
      StepKeeps(Now(), CallbackTurn);
      var chunk := streamQueue[0];
      streamQueue := streamQueue[1..];
      if terminationCode.Some? {
        EndTurn();
      } else {
        running := true;
        started := started + [chunk];
      }
    }

    method EndTurn()
      modifies this`pendingStreamWrites, this`running, this`settled
      ensures Now() == TurnDone(old(Now()))
    {
      hide SettleSuccess, SettleTerminated;
      pendingStreamWrites := pendingStreamWrites - 1;
      running := false;
      if terminationCode.None? {
        SettleSuccessfulClose();
      } else {
        SettleWhenTerminated();
      }
    }

    method OnChunkHandled(fails: bool)
      requires Valid() && running
      modifies this
      ensures Valid() && Now() == Step(old(Now()), CallbackEnds(fails))
    {
      hide Inv, TurnDone, Terminated, SettleTerminated;
      StepKeeps(Now(), CallbackEnds(fails));
      if !fails {
        EndTurn();
      } else {
        pendingStreamWrites := pendingStreamWrites - 1;
        running := false;
        TerminateRun(options.failureCode);
        SettleWhenTerminated();
      }
    }

    /** The pump's `finally`, past its await. */
    method FinishPump()
      modifies this`pump, this`settled
      ensures Now() == PumpOver(old(Now()))
    {
      hide SettleSuccess, SettleTerminated;
      pump := Over;
      SettleSuccessfulClose();
      SettleWhenTerminated();
    }

    method OnInputEnd(fails: bool)
      requires Valid() && options.input && pump.Reading?
      modifies this
      ensures Valid() && Now() == Step(old(Now()), InputEnds(fails))
    {
      hide Inv, Terminated, PumpOver;
      StepKeeps(Now(), InputEnds(fails));
      if fails {
        inputFailed := true;
        TerminateRun(if terminationCode.Some? then terminationCode.value else options.failureCode);
      }
      if terminationCode.Some? {
        pump := Containing;
      } else {
        FinishPump();
      }
    }

    method OnChildError()
      requires Valid()
      modifies this
      ensures Valid() && Now() == Step(old(Now()), ChildError)
    {
      hide Inv, Terminated, SettleTerminated;
      StepKeeps(Now(), ChildError);
      childClosed := true;
      TerminateRun(GitUnavailable);
      SettleWhenTerminated();
    }

    method OnChildClose(code: Option<int>)
      requires Valid() && exit.None?
      modifies this
      ensures Valid() && Now() == Step(old(Now()), ChildClose(code))
    {
      hide Inv, Terminated, SettleTerminated, SettleSuccess;
      StepKeeps(Now(), ChildClose(code));
      childClosed := true;
      exit := Some(if code.Some? then code.value else -1);
      if terminationCode.Some? {
        SettleWhenTerminated();
      } else if code.None? {
        TerminateRun(ProcessFailed);
        SettleWhenTerminated();
      } else if options.accepted(code.value) {
        successfulClose := true;
        SettleSuccessfulClose();
      } else {
        TerminateRun(options.failureCode);
        SettleWhenTerminated();
      }
    }
  }
}
