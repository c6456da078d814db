/** Admission of Git receives. Each `acquire` waits for all earlier ones through a chain of promises, then looks at
    the counters, awaits the free space and only then updates them; between awaits releases, aborts, timeouts and
    `close` interleave freely. */
module GitReceiveAdmission {
  import opened Common

  type Project = nat

  datatype Limits = Limits(maxActive: int, maxPerProject: int, reservation: int, floor: int) {
    predicate Valid() {
      0 < maxPerProject <= maxActive && reservation > 0 && floor > 0
    }
  }

  /** Where the frame of one `acquire` call stands: awaiting the calls before it, awaiting the free space with the
      count it has read, or finished. */
  datatype Phase = Waiting | Measuring(count: int) | Finished

  datatype Call = Call(project: Project, phase: Phase)

  datatype State = State(limits: Limits, active: int, byProject: map<Project, int>, reserved: int, pending: int,
                         closed: bool, closeResolved: bool, calls: seq<Call>, live: map<nat, Project>, entered: seq<nat>)

  function At(m: map<Project, int>, p: Project): int { if p in m then m[p] else 0 }

  /** The promise `#serial` held after `n` calls: each link resolves with the one before it and its own call. */
  predicate ChainResolved(calls: seq<Call>, n: nat)
    requires n <= |calls|
  {
    n == 0 || (ChainResolved(calls, n - 1) && calls[n - 1].phase.Finished?)
  }

  function Unfinished(calls: seq<Call>): nat {
    if calls == [] then 0
    else Unfinished(calls[..|calls| - 1]) + if calls[|calls| - 1].phase.Finished? then 0 else 1
  }

  ghost function LiveOf(live: map<nat, Project>, p: Project): set<nat> { set i | i in live && live[i] == p }

  // ----- segments

  datatype Event =
    | Acquire(project: Project, refused: bool)
    | Wake(call: nat, aborted: bool)
    | Cancel(call: nat)
    | Measured(call: nat, available: Option<int>, aborted: bool)
    | Release(call: nat)
    | Close

  /** `#settleClose`. */
  function Settled(s: State): State {
    s.(closeResolved := s.closeResolved || (s.closed && s.active == 0 && s.pending == 0))
  }

  function Moved(s: State, i: nat, phase: Phase): State
    requires i < |s.calls|
  {
    s.(calls := s.calls[i := s.calls[i].(phase := phase)])
  }

  /** The `finally` block: the call leaves the chain. */
  function Left(s: State, i: nat): State
    requires i < |s.calls|
  {
    Settled(Moved(s, i, Finished).(pending := s.pending - 1))
  }

  predicate In(s: State, i: nat, waiting: bool) {
    i < |s.calls| && if waiting then s.calls[i].phase.Waiting? else s.calls[i].phase.Measuring?
  }

  predicate Enough(s: State, available: Option<int>) {
    available.Some? && available.value >= 0 && available.value >= s.limits.floor + s.reserved + s.limits.reservation
  }

  /** The counters after a grant; the project's count is the one read before the await, plus one. */
  function Granted(s: State, i: nat): State
    requires In(s, i, false)
  {
    var p := s.calls[i].project;
    s.(active := s.active + 1, byProject := s.byProject[p := s.calls[i].phase.count + 1],
       reserved := s.reserved + s.limits.reservation, live := s.live[i := p])
  }

  function Returned(s: State, i: nat): State
    requires i in s.live
  {
    var p := s.live[i];
    var count := (if p in s.byProject then s.byProject[p] else 1) - 1;
    s.(active := s.active - 1, reserved := s.reserved - s.limits.reservation, live := s.live - {i},
       byProject := if count == 0 then s.byProject - {p} else s.byProject[p := count])
  }

  /** `refused` stands for a malformed project or an already aborted signal; `Cancel` for an abort or `close` that
      wins the race against the chain; `available` is missing when measuring failed, timed out or was aborted. */
  function Step(s: State, e: Event): State {
    match e
    case Acquire(project, refused) =>
      if s.closed || refused then s
      else s.(calls := s.calls + [Call(project, Waiting)], pending := s.pending + 1)
    case Cancel(i) => if In(s, i, true) then Left(s, i) else s
    case Wake(i, aborted) =>
      if !In(s, i, true) || !ChainResolved(s.calls, i) then s
      else if s.closed || aborted || s.active >= s.limits.maxActive
              || At(s.byProject, s.calls[i].project) >= s.limits.maxPerProject then Left(s, i)
      else Moved(s, i, Measuring(At(s.byProject, s.calls[i].project))).(entered := s.entered + [i])
    case Measured(i, available, aborted) =>
      if !In(s, i, false) then s
      else if aborted || !Enough(s, available) then Left(s, i)
      else Left(Granted(s, i), i)
    case Release(i) => if i in s.live then Settled(Returned(s, i)) else s
    case Close => if s.closed then s else Settled(s.(closed := true))
  }

  function Initial(limits: Limits): State {
    State(limits, 0, map[], 0, 0, false, false, [], map[], [])
  }

  /** Any interleaving of segments. */
  function Run(limits: Limits, events: seq<Event>): State {
    if events == [] then Initial(limits) else Step(Run(limits, events[..|events| - 1]), events[|events| - 1])
  }

  // ----- the invariant

  /** Whoever measures, every earlier call has finished: one at a time, in arrival order. */
  ghost predicate Exclusive(calls: seq<Call>, entered: seq<nat>) {
    && (forall i, j | 0 <= j < i < |calls| && calls[i].phase.Measuring? :: calls[j].phase.Finished?)
    && (forall a, b | 0 <= a < b < |entered| :: entered[a] < entered[b])
    && (forall a | 0 <= a < |entered| :: entered[a] < |calls| && !calls[entered[a]].phase.Waiting?)
    && (forall a, j | 0 <= a < |entered| && 0 <= j < entered[a] && j < |calls| :: calls[j].phase.Finished?)
  }

  /** The project count never falls below the live permits, and never exceeds the cap. */
  ghost predicate CountsOk(limits: Limits, byProject: map<Project, int>, live: map<nat, Project>) {
    && (forall p :: |LiveOf(live, p)| <= At(byProject, p) <= limits.maxPerProject)
    && (forall p | p in byProject :: byProject[p] > 0)
  }

  /** With a per-project cap of one the count is exact. */
  ghost predicate ExactOk(byProject: map<Project, int>, live: map<nat, Project>) {
    forall p :: At(byProject, p) == |LiveOf(live, p)|
  }

  /** What a call that is measuring may rely on: room, and a count not below the live permits of its project. */
  ghost predicate MeasuringOk(s: State, i: nat)
    requires In(s, i, false)
  {
    var count := s.calls[i].phase.count;
    && s.active < s.limits.maxActive && |LiveOf(s.live, s.calls[i].project)| <= count < s.limits.maxPerProject
    && i !in s.live
  }

  ghost predicate Inv(s: State) {
    && s.limits.Valid()
    && s.active == |s.live| <= s.limits.maxActive && s.reserved == s.limits.reservation * s.active
    && s.pending == Unfinished(s.calls)
    && Exclusive(s.calls, s.entered)
    && CountsOk(s.limits, s.byProject, s.live)
    && (s.limits.maxPerProject == 1 ==> ExactOk(s.byProject, s.live))
    && (forall i | In(s, i, false) :: MeasuringOk(s, i))
    && (forall i | i in s.live :: i < |s.calls| && s.calls[i].phase.Finished?)
    && (s.closeResolved <==> s.closed && s.active == 0 && s.pending == 0)
  }

  // ----- lemmas on the parts

  lemma {:induction false} ChainMeans(calls: seq<Call>, n: nat)
    requires n <= |calls|
    ensures ChainResolved(calls, n) <==> forall j | 0 <= j < n :: calls[j].phase.Finished?
  {
    if n > 0 {
      ChainMeans(calls, n - 1);
    }
  }

  lemma {:induction false} UnfinishedMoved(calls: seq<Call>, i: nat, c: Call)
    requires i < |calls| && !calls[i].phase.Finished?
    ensures Unfinished(calls[i := c]) == Unfinished(calls) - if c.phase.Finished? then 1 else 0
    decreases |calls|
  {
    var n := |calls| - 1;
    if i < n {
      UnfinishedMoved(calls[..n], i, c);
      assert calls[i := c][..n] == calls[..n][i := c];
    } else {
      assert calls[i := c][..n] == calls[..n];
    }
  }

  lemma {:induction false} UnfinishedZero(calls: seq<Call>)
    requires Unfinished(calls) == 0
    ensures forall i | 0 <= i < |calls| :: calls[i].phase.Finished?
  {
    if calls != [] {
      UnfinishedZero(calls[..|calls| - 1]);
    }
  }

  lemma {:induction false} UnfinishedSome(calls: seq<Call>, i: nat)
    requires i < |calls| && !calls[i].phase.Finished?
    ensures Unfinished(calls) > 0
  {
    if i < |calls| - 1 {
      UnfinishedSome(calls[..|calls| - 1], i);
    }
  }

  lemma LiveMore(live: map<nat, Project>, i: nat, q: Project, p: Project)
    requires i !in live
    ensures |LiveOf(live[i := q], p)| == |LiveOf(live, p)| + if p == q then 1 else 0
  {
    assert LiveOf(live[i := q], p) == LiveOf(live, p) + if p == q then {i} else {};
  }

  lemma LiveLess(live: map<nat, Project>, i: nat, p: Project)
    requires i in live
    ensures |LiveOf(live - {i}, p)| == |LiveOf(live, p)| - if p == live[i] then 1 else 0
  {
    assert LiveOf(live, p) == LiveOf(live - {i}, p) + if p == live[i] then {i} else {};
  }

  lemma LiveSize(live: map<nat, Project>, i: nat, q: Project)
    ensures i !in live ==> |live[i := q]| == |live| + 1
    ensures i in live ==> |live - {i}| == |live| - 1
  {
    assert |live[i := q]| == |live[i := q].Keys| && |live| == |live.Keys| && |live - {i}| == |(live - {i}).Keys|;
    assert live[i := q].Keys == live.Keys + {i} && (live - {i}).Keys == live.Keys - {i};
  }

  /** Finishing, or starting to measure when everyone before has finished, keeps the order. */
  lemma MovedExclusive(calls: seq<Call>, entered: seq<nat>, i: nat, phase: Phase)
    requires Exclusive(calls, entered) && i < |calls| && !phase.Waiting?
    requires phase.Finished? || (calls[i].phase.Waiting? && forall j | 0 <= j < i :: calls[j].phase.Finished?)
    ensures var moved := calls[i := calls[i].(phase := phase)];
            && (phase.Finished? ==> Exclusive(moved, entered))
            && (phase.Measuring? ==> Exclusive(moved, entered + [i]))
  {
    var moved := calls[i := calls[i].(phase := phase)];
    if phase.Measuring? {
      forall a | 0 <= a < |entered| ensures entered[a] < i {
        assert !calls[entered[a]].phase.Waiting?;
      }
    }
  }

  lemma GrantedCounts(limits: Limits, byProject: map<Project, int>, live: map<nat, Project>, i: nat, q: Project, count: int)
    requires CountsOk(limits, byProject, live) && i !in live && |LiveOf(live, q)| <= count < limits.maxPerProject
    ensures CountsOk(limits, byProject[q := count + 1], live[i := q])
    ensures limits.maxPerProject == 1 && ExactOk(byProject, live) ==> ExactOk(byProject[q := count + 1], live[i := q])
  {
    hide LiveOf;
    var after, more := byProject[q := count + 1], live[i := q];
    forall p ensures |LiveOf(more, p)| <= At(after, p) <= limits.maxPerProject {
      LiveMore(live, i, q, p);
      assert |LiveOf(live, p)| <= At(byProject, p) <= limits.maxPerProject;
    }
    if limits.maxPerProject == 1 && ExactOk(byProject, live) {
      forall p ensures At(after, p) == |LiveOf(more, p)| {
        LiveMore(live, i, q, p);
        assert |LiveOf(live, p)| == At(byProject, p);
      }
    }
  }

  lemma ReturnedCounts(limits: Limits, byProject: map<Project, int>, live: map<nat, Project>, i: nat)
    requires CountsOk(limits, byProject, live) && i in live
    ensures var p := live[i]; var count := (if p in byProject then byProject[p] else 1) - 1;
            var after := if count == 0 then byProject - {p} else byProject[p := count];
            && CountsOk(limits, after, live - {i}) && (ExactOk(byProject, live) ==> ExactOk(after, live - {i}))
  {
    hide LiveOf;
    var p := live[i];
    var count := (if p in byProject then byProject[p] else 1) - 1;
    var after := if count == 0 then byProject - {p} else byProject[p := count];
    var less := live - {i};
    LiveLess(live, i, p);
    assert |LiveOf(live, p)| <= At(byProject, p);
    forall q ensures |LiveOf(less, q)| <= At(after, q) <= limits.maxPerProject {
      LiveLess(live, i, q);
      assert |LiveOf(live, q)| <= At(byProject, q) <= limits.maxPerProject;
    }
    if ExactOk(byProject, live) {
      forall q ensures At(after, q) == |LiveOf(less, q)| {
        LiveLess(live, i, q);
        assert |LiveOf(live, q)| == At(byProject, q);
      }
    }
  }

  // ----- every segment keeps the invariant

  /** The invariant but for one call that is about to leave and for the settling of `close`. */
  ghost predicate Leaving(s: State, i: nat) {
    && s.limits.Valid() && i < |s.calls| && !s.calls[i].phase.Finished?
    && s.active == |s.live| <= s.limits.maxActive && s.reserved == s.limits.reservation * s.active
    && s.pending == Unfinished(s.calls)
    && Exclusive(s.calls, s.entered)
    && CountsOk(s.limits, s.byProject, s.live)
    && (s.limits.maxPerProject == 1 ==> ExactOk(s.byProject, s.live))
    && (forall j | In(s, j, false) && j != i :: MeasuringOk(s, j))
    && (forall j | j in s.live :: j < |s.calls| && (s.calls[j].phase.Finished? || j == i))
    && !s.closeResolved
  }

  lemma LeftKeeps(s: State, i: nat)
    requires Leaving(s, i)
    ensures Inv(Left(s, i))
  {
    hide CountsOk, ExactOk, Exclusive, Unfinished;
    MovedExclusive(s.calls, s.entered, i, Finished);
    UnfinishedMoved(s.calls, i, s.calls[i].(phase := Finished));
    var t := Left(s, i);
    forall j | In(t, j, false) ensures MeasuringOk(t, j) {
      assert In(s, j, false) && MeasuringOk(s, j);
    }
  }

  lemma AboutToLeave(s: State, i: nat)
    requires Inv(s) && i < |s.calls| && !s.calls[i].phase.Finished?
    ensures Leaving(s, i)
  {
    hide CountsOk, ExactOk, Exclusive;
    UnfinishedSome(s.calls, i);
    hide Unfinished;
  }

  lemma WakeKeeps(s: State, i: nat)
    requires Inv(s) && In(s, i, true) && ChainResolved(s.calls, i) && !s.closed
    requires s.active < s.limits.maxActive && At(s.byProject, s.calls[i].project) < s.limits.maxPerProject
    ensures Inv(Moved(s, i, Measuring(At(s.byProject, s.calls[i].project))).(entered := s.entered + [i]))
  {
    hide ChainResolved, ExactOk, Unfinished;
    var p := s.calls[i].project;
    var phase := Measuring(At(s.byProject, p));
    var t := Moved(s, i, phase).(entered := s.entered + [i]);
    ChainMeans(s.calls, i);
    MovedExclusive(s.calls, s.entered, i, phase);
    UnfinishedMoved(s.calls, i, s.calls[i].(phase := phase));
    assert |LiveOf(s.live, p)| <= At(s.byProject, p);
    OnlyOne(t.calls, t.entered, i);
    hide CountsOk, At;
    assert MeasuringOk(t, i);
    hide Exclusive, LiveOf;
  }

  lemma GrantKeeps(s: State, i: nat)
    requires Inv(s) && In(s, i, false)
    ensures Leaving(Granted(s, i), i)
  {
    hide Exclusive, LiveOf;
    AboutToLeave(s, i);
    assert MeasuringOk(s, i);
    GrantedCounts(s.limits, s.byProject, s.live, i, s.calls[i].project, s.calls[i].phase.count);
    hide CountsOk, ExactOk, At, Unfinished;
    LiveSize(s.live, i, s.calls[i].project);
    MoreBytes(s.limits, s.active);
    OnlyOne(s.calls, s.entered, i);
  }

  lemma MoreBytes(limits: Limits, n: int)
    ensures limits.reservation * (n + 1) == limits.reservation * n + limits.reservation
  {}

  lemma OnlyOne(calls: seq<Call>, entered: seq<nat>, i: nat)
    requires Exclusive(calls, entered) && i < |calls| && calls[i].phase.Measuring?
    ensures forall j | 0 <= j < |calls| && calls[j].phase.Measuring? :: j == i
  {}

  lemma ReleaseMeasuring(s: State, i: nat, j: nat)
    requires i in s.live && In(s, j, false) && MeasuringOk(s, j)
    ensures MeasuringOk(Settled(Returned(s, i)), j)
  {
    hide LiveOf;
    LiveLess(s.live, i, s.calls[j].project);
  }

  lemma ReleaseKeeps(s: State, i: nat)
    requires Inv(s) && i in s.live
    ensures Inv(Settled(Returned(s, i)))
  {
    hide Exclusive, Unfinished, CountsOk, ExactOk, At, LiveOf, MeasuringOk;
    ReturnedCounts(s.limits, s.byProject, s.live, i);
    LiveSize(s.live, i, 0);
    MoreBytes(s.limits, s.active - 1);
    var t := Settled(Returned(s, i));
    forall j | In(t, j, false) ensures MeasuringOk(t, j) {
      ReleaseMeasuring(s, i, j);
    }
  }

  lemma AcquireKeeps(s: State, project: Project)
    requires Inv(s) && !s.closed
    ensures Inv(Step(s, Acquire(project, false)))
  {
    var t := Step(s, Acquire(project, false));
    assert t.calls[..|s.calls|] == s.calls;
    assert Unfinished(t.calls) == Unfinished(s.calls) + 1;
    hide CountsOk, ExactOk, Unfinished;
    forall j | In(t, j, false) ensures MeasuringOk(t, j) {
      assert In(s, j, false) && MeasuringOk(s, j);
    }
  }

  lemma StepKeeps(s: State, e: Event)
    requires Inv(s)
    ensures Inv(Step(s, e))
  {
    hide Inv, Leaving, ChainResolved, At, Enough;
    match e
    case Acquire(project, refused) => if !s.closed && !refused { AcquireKeeps(s, project); }
    case Cancel(i) => if In(s, i, true) { AboutToLeave(s, i); LeftKeeps(s, i); }
    case Wake(i, aborted) =>
      if In(s, i, true) && ChainResolved(s.calls, i) {
        if s.closed || aborted || s.active >= s.limits.maxActive
           || At(s.byProject, s.calls[i].project) >= s.limits.maxPerProject {
          AboutToLeave(s, i);
          LeftKeeps(s, i);
        } else {
          WakeKeeps(s, i);
        }
      }
    case Measured(i, available, aborted) =>
      if In(s, i, false) {
        if aborted || !Enough(s, available) {
          AboutToLeave(s, i);
          LeftKeeps(s, i);
        } else {
          GrantKeeps(s, i);
          LeftKeeps(Granted(s, i), i);
        }
      }
    case Release(i) => if i in s.live { ReleaseKeeps(s, i); }
    case Close => if !s.closed { CloseKeeps(s); }
  }

  lemma CloseKeeps(s: State)
    requires Inv(s) && !s.closed
    ensures Inv(Settled(s.(closed := true)))
  {
    hide CountsOk, ExactOk, Exclusive, Unfinished;
    var t := Settled(s.(closed := true));
    forall j | In(t, j, false) ensures MeasuringOk(t, j) {
      assert In(s, j, false) && MeasuringOk(s, j);
    }
  }

  lemma InitialInv(limits: Limits)
    requires limits.Valid()
    ensures Inv(Initial(limits))
  {
    forall p ensures LiveOf(map[], p) == {} {}
  }

  lemma StepLimits(s: State, e: Event)
    ensures Step(s, e).limits == s.limits
  {}

  /** Main result: the invariant in every reachable state. */
  lemma {:induction false} AlwaysInv(limits: Limits, events: seq<Event>)
    requires limits.Valid()
    ensures Inv(Run(limits, events)) && Run(limits, events).limits == limits
    decreases |events|
  {
    hide Inv, Step;
    if events == [] {
      InitialInv(limits);
    } else {
      AlwaysInv(limits, events[..|events| - 1]);
      StepKeeps(Run(limits, events[..|events| - 1]), events[|events| - 1]);
      StepLimits(Run(limits, events[..|events| - 1]), events[|events| - 1]);
    }
  }

  // ----- what callers rely on

  /** In every reachable state: at most one call is between reading and updating the counters, and calls get there
      in arrival order; the caps hold and bytes are conserved; the project count never falls below the live
      permits, nor do these exceed the cap. */
  lemma Accounts(limits: Limits, events: seq<Event>)
    requires limits.Valid()
    ensures var s := Run(limits, events);
            && (forall i, j | 0 <= i < |s.calls| && 0 <= j < |s.calls| && s.calls[i].phase.Measuring? && s.calls[j].phase.Measuring? :: i == j)
            && (forall a, b | 0 <= a < b < |s.entered| :: s.entered[a] < s.entered[b])
            && s.active == |s.live| <= limits.maxActive && s.reserved == limits.reservation * |s.live|
            && (forall p :: |LiveOf(s.live, p)| <= At(s.byProject, p) <= limits.maxPerProject)
  {
    hide Run, ExactOk, LiveOf, At;
    AlwaysInv(limits, events);
  }

  /** Closing resolves exactly when nothing is pending and no permit is live; from then on none ever is. */
  lemma ClosedForGood(limits: Limits, events: seq<Event>, later: seq<Event>)
    requires limits.Valid()
    ensures var s := Run(limits, events); s.closeResolved <==> s.closed && s.live == map[] && Unfinished(s.calls) == 0
    ensures Run(limits, events).closeResolved ==> Run(limits, events + later).closeResolved && Run(limits, events + later).live == map[]
    decreases |later|
  {
    hide Inv, Run, Step, Unfinished;
    AlwaysInv(limits, events);
    ResolvedMeans(Run(limits, events));
    if later == [] {
      assert events + later == events;
    } else {
      var front, last := later[..|later| - 1], later[|later| - 1];
      ClosedForGood(limits, events, front);
      assert events + later == (events + front) + [last];
      RunMore(limits, events + front, last);
      AlwaysInv(limits, events + front);
      if Run(limits, events).closeResolved {
        ResolvedStays(Run(limits, events + front), last);
        StepKeeps(Run(limits, events + front), last);
        ResolvedMeans(Run(limits, events + later));
      }
    }
  }

  lemma RunMore(limits: Limits, events: seq<Event>, e: Event)
    ensures Run(limits, events + [e]) == Step(Run(limits, events), e)
  {
    assert (events + [e])[..|events|] == events;
  }

  lemma ResolvedMeans(s: State)
    requires Inv(s)
    ensures s.closeResolved <==> s.closed && s.live == map[] && Unfinished(s.calls) == 0
  {
    hide CountsOk, ExactOk, Exclusive, Unfinished;
  }

  lemma ResolvedStays(s: State, e: Event)
    requires Inv(s) && s.closeResolved
    ensures Step(s, e) == s
  {
    hide CountsOk, ExactOk, Exclusive;
    UnfinishedZero(s.calls);
    hide Unfinished;
    assert |s.live| == 0;
  }

  /** A call joins the chain exactly when the admission is open and the request valid, and then awaits it. */
  lemma ArrivalJoins(s: State, project: Project, refused: bool)
    ensures Step(s, Acquire(project, refused))
            == if s.closed || refused then s
               else s.(calls := s.calls + [Call(project, Waiting)], pending := s.pending + 1)
  {}

  /** In every run, a call whose predecessors have all finished goes on to measure exactly when the admission is open,
      the call not aborted, fewer than the cap are live and its project's count is below its cap; otherwise it
      leaves the chain, and either way no permit and no counter changes. */
  lemma WokenDecided(limits: Limits, events: seq<Event>, i: nat, aborted: bool)
    requires limits.Valid()
    requires var calls := Run(limits, events).calls;
             i < |calls| && calls[i].phase.Waiting? && forall j | 0 <= j < i :: calls[j].phase.Finished?
    ensures var s := Run(limits, events); var t := Step(s, Wake(i, aborted)); var count := At(s.byProject, s.calls[i].project);
            && t.calls == s.calls[i := s.calls[i].(phase :=
                            if !s.closed && !aborted && |s.live| < limits.maxActive && count < limits.maxPerProject
                            then Measuring(count) else Finished)]
            && t.live == s.live && t.active == s.active && t.reserved == s.reserved && t.byProject == s.byProject
  {
    hide Run, CountsOk, ExactOk, Exclusive, Unfinished, At;
    AlwaysInv(limits, events);
    ChainMeans(Run(limits, events).calls, i);
    hide ChainResolved;
  }

  /** With a per-project cap of one, the count below the cap means that no permit of the project is live. */
  lemma CapOneMeansIdle(limits: Limits, events: seq<Event>, p: Project)
    requires limits.Valid() && limits.maxPerProject == 1
    ensures var s := Run(limits, events); At(s.byProject, p) < 1 <==> forall i | i in s.live :: s.live[i] != p
  {
    hide Run, CountsOk, Exclusive, Unfinished, At;
    AlwaysInv(limits, events);
    var s := Run(limits, events);
    assert At(s.byProject, p) == |LiveOf(s.live, p)|;
    if LiveOf(s.live, p) == {} {
      assert forall i | i in s.live && s.live[i] == p :: i in LiveOf(s.live, p);
    } else {
      var i :| i in LiveOf(s.live, p);
    }
  }

  /** A first release takes exactly its permit and its bytes away, one from the project's count, and moves no call;
      any other release changes nothing. */
  lemma ReleaseFrees(limits: Limits, events: seq<Event>, i: nat)
    requires limits.Valid()
    ensures var s := Run(limits, events); var t := Step(s, Release(i));
            if i !in s.live then t == s
            else && t.live == s.live - {i} && t.active == s.active - 1 && t.reserved == s.reserved - limits.reservation
                 && (forall p :: At(t.byProject, p) == At(s.byProject, p) - if p == s.live[i] then 1 else 0)
                 && t.calls == s.calls
  {
    hide Run, ExactOk, Exclusive, Unfinished;
    AlwaysInv(limits, events);
    var s := Run(limits, events);
    if i in s.live {
      assert i in LiveOf(s.live, s.live[i]);
      assert At(s.byProject, s.live[i]) >= |LiveOf(s.live, s.live[i])|;
      hide CountsOk;
    }
  }

  /** Giving up while awaiting the chain, or measuring in vain, only finishes the call. */
  lemma GivingUp(s: State, i: nat)
    requires i < |s.calls|
    ensures s.calls[i].phase.Waiting? ==>
              Step(s, Cancel(i)).calls == s.calls[i := s.calls[i].(phase := Finished)] && Step(s, Cancel(i)).live == s.live
    ensures s.calls[i].phase.Measuring? ==>
              var t := Step(s, Measured(i, None, false));
              t.calls == s.calls[i := s.calls[i].(phase := Finished)] && t.live == s.live && t.reserved == s.reserved
  {}

  /** A permit is granted exactly when the free space covers the floor and all reservations; being closed meanwhile
      does not prevent it. */
  lemma GrantedWhen(s: State, i: nat, available: Option<int>, aborted: bool)
    requires Inv(s) && In(s, i, false)
    ensures var t := Step(s, Measured(i, available, aborted));
            i in t.live <==> !aborted && available.Some? && available.value >= 0
                             && available.value >= s.limits.floor + s.limits.reservation * (s.active + 1)
  {
    hide CountsOk, ExactOk, Exclusive, Unfinished, LiveOf;
    MoreBytes(s.limits, s.active);
    assert MeasuringOk(s, i);
  }

  /** A run in which a permit is granted after `close` was called. */
  lemma GrantedAfterClose(limits: Limits)
    requires limits.Valid()
    ensures var available := Some(limits.floor + limits.reservation);
            var s := Run(limits, [Acquire(0, false), Wake(0, false), Close, Measured(0, available, false)]);
            s.closed && s.live == map[0 := 0]
  {
    var available := Some(limits.floor + limits.reservation);
    RunFour(limits, Acquire(0, false), Wake(0, false), Close, Measured(0, available, false));
  }

  lemma RunFour(limits: Limits, a: Event, b: Event, c: Event, d: Event)
    ensures Run(limits, [a, b, c, d]) == Step(Step(Step(Step(Initial(limits), a), b), c), d)
  {
    hide Step, Initial;
    assert [a, b, c, d] == [a, b, c] + [d] && [a, b, c] == [a, b] + [c] && [a, b] == [a] + [b] && [a] == [] + [a];
    RunMore(limits, [], a);
    RunMore(limits, [a], b);
    RunMore(limits, [a, b], c);
    RunMore(limits, [a, b, c], d);
  }

  /** The history that leaves a count too high: a second call reads the count, the first permit is released, and
      the second call writes back what it had read, plus one. */
  function Overcounting(limits: Limits): seq<Event> {
    var available := Some(limits.floor + 2 * limits.reservation);
    [Acquire(0, false), Wake(0, false), Measured(0, available, false), Acquire(0, false), Wake(1, false), Release(0),
     Measured(1, available, false)]
  }

  /** Its stages: one permit granted and a second call waiting; that call measuring; the permit released. */
  function Stage(limits: Limits, second: Phase, live: bool): State {
    var n := if live then 1 else 0;
    State(limits, n, if live then map[0 := 1] else map[], n * limits.reservation, 1, false, false,
          [Call(0, Finished), Call(0, second)], if live then map[0 := 0] else map[], if second.Waiting? then [0] else [0, 1])
  }

  lemma FirstGranted(limits: Limits)
    requires limits.Valid()
    ensures var available := Some(limits.floor + 2 * limits.reservation);
            Run(limits, [Acquire(0, false), Wake(0, false), Measured(0, available, false), Acquire(0, false)])
            == Stage(limits, Waiting, true)
  {
    hide Run;
    var available := Some(limits.floor + 2 * limits.reservation);
    RunFour(limits, Acquire(0, false), Wake(0, false), Measured(0, available, false), Acquire(0, false));
  }

  lemma SecondWakes(limits: Limits)
    requires limits.Valid() && limits.maxPerProject >= 2
    ensures Step(Stage(limits, Waiting, true), Wake(1, false)) == Stage(limits, Measuring(1), true)
  {
    ChainMeans(Stage(limits, Waiting, true).calls, 1);
    hide ChainResolved;
  }

  lemma FirstReleased(limits: Limits)
    ensures Step(Stage(limits, Measuring(1), true), Release(0)) == Stage(limits, Measuring(1), false)
  {
    assert map[0 := 0] - {0} == map[];
    assert map[0 := 1] - {0} == map[];
  }

  lemma SecondGranted(limits: Limits)
    requires limits.Valid()
    ensures var s := Step(Stage(limits, Measuring(1), false), Measured(1, Some(limits.floor + 2 * limits.reservation), false));
            s.live == map[1 := 0] && At(s.byProject, 0) == 2
  {}

  lemma Overcounts(limits: Limits)
    requires limits.Valid() && limits.maxPerProject >= 2
    ensures var s := Run(limits, Overcounting(limits)); s.live == map[1 := 0] && At(s.byProject, 0) == 2
  {
    hide Run, Step, Stage, At;
    var available := Some(limits.floor + 2 * limits.reservation);
    var four := [Acquire(0, false), Wake(0, false), Measured(0, available, false), Acquire(0, false)];
    FirstGranted(limits);
    SecondWakes(limits);
    FirstReleased(limits);
    SecondGranted(limits);
    RunMore(limits, four, Wake(1, false));
    RunMore(limits, four + [Wake(1, false)], Release(0));
    RunMore(limits, four + [Wake(1, false)] + [Release(0)], Measured(1, available, false));
    assert four + [Wake(1, false)] + [Release(0)] + [Measured(1, available, false)] == Overcounting(limits);
  }

  lemma NotExact(byProject: map<Project, int>, live: map<nat, Project>, p: Project)
    requires At(byProject, p) != |LiveOf(live, p)|
    ensures !ExactOk(byProject, live)
  {}

  /** The per-project count is exact in every run exactly when the per-project cap is one. */
  lemma ExactIffCapOne(limits: Limits)
    requires limits.Valid()
    ensures (forall events :: ExactOk(Run(limits, events).byProject, Run(limits, events).live)) <==> limits.maxPerProject == 1
  {
    hide Run, ExactOk, At;
    if limits.maxPerProject == 1 {
      forall events ensures ExactOk(Run(limits, events).byProject, Run(limits, events).live) {
        AlwaysInv(limits, events);
      }
    } else {
      Overcounts(limits);
      var s := Run(limits, Overcounting(limits));
      assert LiveOf(s.live, 0) == {1};
      NotExact(s.byProject, s.live, 0);
    }
  }

  // ----- the class as the source writes it

  /** `calls` are the suspended frames of `acquire` with their links of the promise chain. */
  class GitReceiveAdmission {
    const limits: Limits
    var active: int
    var activeByProject: map<Project, int>
    var reservedBytes: int
    var pending: int
    var closed: bool
    var closeResolved: bool
    var calls: seq<Call>
    var live: map<nat, Project>
    ghost var entered: seq<nat>

    ghost function Now(): State
      reads this
    {
      State(limits, active, activeByProject, reservedBytes, pending, closed, closeResolved, calls, live, entered)
    }

    ghost predicate Valid()
      reads this
    {
      Inv(Now())
    }

    constructor (limits: Limits)
      requires limits.Valid()
      ensures Valid() && Now() == Initial(limits)
    {
      hide Inv;
      this.limits := limits;
      active, activeByProject, reservedBytes, pending, closed, closeResolved := 0, map[], 0, 0, false, false;
      calls, live, entered := [], map[], [];
      new;
      assert Now() == Initial(limits);
      InitialInv(limits);
    }

    /** `acquire` up to its first await: it joins the chain. */
    method Begin(project: Project, refused: bool) returns (call: Option<nat>)
      requires Valid()
      modifies this`calls, this`pending
      ensures Valid() && Now() == Step(old(Now()), Acquire(project, refused))
      ensures call == if |calls| > |old(calls)| then Some(|old(calls)|) else None
    {
      hide Inv;
      StepKeeps(Now(), Acquire(project, refused));
      if closed || refused {
        return None;
      }
      call := Some(|calls|);
      pending := pending + 1;
      calls := calls + [Call(project, Waiting)];
    }

    /** The abort race is lost to the signal while the call still awaits the chain. */
    method Abandon(call: nat)
      requires Valid() && In(Now(), call, true)
      modifies this`calls, this`pending, this`closeResolved
      ensures Valid() && Now() == Step(old(Now()), Cancel(call))
    {
      hide Inv, Settled;
      StepKeeps(Now(), Cancel(call));
      Leave(call);
    }

    method Leave(call: nat)
      requires call < |calls|
      modifies this`calls, this`pending, this`closeResolved
      ensures Now() == Left(old(Now()), call)
    {
      calls := calls[call := calls[call].(phase := Finished)];
      pending := pending - 1;
      SettleClose();
    }

    method SettleClose()
      modifies this`closeResolved
      ensures Now() == Settled(old(Now()))
    {
      if closed && active == 0 && pending == 0 {
        closeResolved := true;
      }
    }

    /** All earlier calls have finished: check the caps, keep the project's count, go on to the second await. */
    method Resume(call: nat, aborted: bool)
      requires Valid() && In(Now(), call, true) && ChainResolved(calls, call)
      modifies this`calls, this`pending, this`closeResolved, this`entered
      ensures Valid() && Now() == Step(old(Now()), Wake(call, aborted))
    {
      hide Inv, Settled, ChainResolved;
      StepKeeps(Now(), Wake(call, aborted));
      var projectActive := At(activeByProject, calls[call].project);
      if closed || aborted || active >= limits.maxActive || projectActive >= limits.maxPerProject {
        Leave(call);
      } else {
        calls := calls[call := calls[call].(phase := Measuring(projectActive))];
        entered := entered + [call];
      }
    }

    /** The free space is known, or not to be had: update the counters or give up. */
    method Finish(call: nat, available: Option<int>, aborted: bool)
      requires Valid() && In(Now(), call, false)
      modifies this`active, this`activeByProject, this`reservedBytes, this`live, this`calls, this`pending, this`closeResolved
      ensures Valid() && Now() == Step(old(Now()), Measured(call, available, aborted))
    {
      hide Inv, Settled, Left;
      StepKeeps(Now(), Measured(call, available, aborted));
      if !aborted && available.Some? && available.value >= 0
         && available.value >= limits.floor + reservedBytes + limits.reservation {
        var project, projectActive := calls[call].project, calls[call].phase.count;
        active := active + 1;
        activeByProject := activeByProject[project := projectActive + 1];
        reservedBytes := reservedBytes + limits.reservation;
        live := live[call := project];
      }
      Leave(call);
    }

    /** A permit's `release`, which does nothing the second time. */
    method ReleasePermit(call: nat)
      requires Valid()
      modifies this`active, this`activeByProject, this`reservedBytes, this`live, this`closeResolved
      ensures Valid() && Now() == Step(old(Now()), Release(call))
    {
      hide Inv, Settled;
      StepKeeps(Now(), Release(call));
      if call !in live {
        return;
      }
      var project := live[call];
      live := live - {call};
      active := active - 1;
      reservedBytes := reservedBytes - limits.reservation;
      var projectActive := (if project in activeByProject then activeByProject[project] else 1) - 1;
      if projectActive == 0 {
        activeByProject := activeByProject - {project};
      } else {
        activeByProject := activeByProject[project := projectActive];
      }
      SettleClose();
    }

    method CloseAdmission()
      requires Valid()
      modifies this`closed, this`closeResolved
      ensures Valid() && Now() == Step(old(Now()), Close) && closed
    {
      hide Inv, Settled;
      StepKeeps(Now(), Close);
      if !closed {
        closed := true;
        SettleClose();
      }
    }
  }
}
