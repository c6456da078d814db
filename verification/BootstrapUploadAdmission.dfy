/** Admission of bootstrap uploads: one asynchronous drain takes waiters from the head of the queue, awaiting the
    free space for each; arrivals, departures, releases and `close` interleave with its awaits. */
module BootstrapUploadAdmission {
  import opened Common

  type Attempt = nat

  datatype Limits = Limits(maxUploads: int, queueMax: int, reservation: int, floor: int) {
    predicate Valid() { maxUploads > 0 && queueMax > 0 && reservation > 0 && floor > 0 }
  }

  datatype Waiter = Waiter(ticket: nat, attempt: Attempt)

  /** `frames` are the suspended calls of `#drainQueue`, each with the head it is measuring for. */
  datatype State = State(limits: Limits, active: int, reserved: int, draining: bool, frames: seq<Waiter>,
                         queue: seq<Waiter>, inFlight: set<Attempt>, live: map<Attempt, nat>,
                         closed: bool, closeResolved: bool, served: seq<nat>, next: nat)

  // ----- segments

  datatype Event =
    | Acquire(attempt: Attempt, refused: bool)
    | Dismiss(ticket: nat)
    | Resume(frame: nat, available: Option<int>, aborted: bool)
    | Release(attempt: Attempt, permit: nat)
    | Close

  predicate MayDrain(s: State) { !s.closed && s.active < s.limits.maxUploads && s.queue != [] }

  /** The head of the loop: measure for the first waiter, or leave. */
  function Loop(s: State): State {
    if MayDrain(s) then s.(frames := s.frames + [s.queue[0]]) else s.(draining := false)
  }

  /** `#kickDrain`. */
  function Kicked(s: State): State {
    if s.closed || s.draining then s else Loop(s.(draining := true))
  }

  function Position(q: seq<Waiter>, ticket: nat): (i: nat)
    ensures i <= |q| && (i < |q| ==> q[i].ticket == ticket)
    ensures i == |q| ==> forall j | 0 <= j < |q| :: q[j].ticket != ticket
  {
    if q == [] || q[0].ticket == ticket then 0 else 1 + Position(q[1..], ticket)
  }

  /** A waiter leaves unserved, if it still waits. */
  function Dismissed(s: State, ticket: nat): State {
    var i := Position(s.queue, ticket);
    if i == |s.queue| then s else s.(queue := Without(s.queue, i), inFlight := s.inFlight - {s.queue[i].attempt})
  }

  function Granted(s: State, w: Waiter): State {
    var i := Position(s.queue, w.ticket);
    s.(queue := if i < |s.queue| then Without(s.queue, i) else s.queue, active := s.active + 1,
       reserved := s.reserved + s.limits.reservation, live := s.live[w.attempt := w.ticket], served := s.served + [w.ticket])
  }

  /** What the drain does with the space it was told, for the waiter it had taken as head. */
  function Decided(s: State, w: Waiter, available: Option<int>, aborted: bool): State {
    if available.None? || available.value < 0 then Dismissed(s, w.ticket)
    else if Position(s.queue, w.ticket) == |s.queue| || s.closed then s
    else if aborted || available.value < s.limits.floor + s.reserved + s.limits.reservation then Dismissed(s, w.ticket)
    else Granted(s, w)
  }

  function AllDismissed(s: State): State
    decreases |s.queue|
  {
    if s.queue == [] then s
    else AllDismissed(s.(queue := Without(s.queue, 0), inFlight := s.inFlight - {s.queue[0].attempt}))
  }

  function Entered(s: State, attempt: Attempt): State {
    s.(queue := s.queue + [Waiter(s.next, attempt)], inFlight := s.inFlight + {attempt}, next := s.next + 1)
  }

  function Step(s: State, e: Event): State {
    match e
    case Acquire(attempt, refused) =>
      if s.closed || refused || attempt in s.inFlight || |s.queue| >= s.limits.queueMax then s
      else Kicked(Entered(s, attempt))
    case Dismiss(ticket) => if Position(s.queue, ticket) == |s.queue| then s else Kicked(Dismissed(s, ticket))
    case Resume(k, available, aborted) =>
      if k >= |s.frames| then s else Loop(Decided(s.(frames := Without(s.frames, k)), s.frames[k], available, aborted))
    case Release(attempt, permit) =>
      if attempt !in s.live || s.live[attempt] != permit then s
      else
        var t := s.(active := s.active - 1, reserved := s.reserved - s.limits.reservation, live := s.live - {attempt},
                    inFlight := s.inFlight - {attempt});
        if t.closed then t.(closeResolved := t.active == 0) else Kicked(t)
    case Close => if s.closed then s else AllDismissed(s).(closed := true, closeResolved := s.active == 0)
  }

  function Initial(limits: Limits): State {
    State(limits, 0, 0, false, [], [], {}, map[], false, false, [], 0)
  }

  function Run(limits: Limits, events: seq<Event>): State {
    if events == [] then Initial(limits) else Step(Run(limits, events[..|events| - 1]), events[|events| - 1])
  }

  // ----- the invariant

  ghost function Waiting(q: seq<Waiter>): set<Attempt> { set w | w in q :: w.attempt }

  ghost predicate Ordered(q: seq<Waiter>, served: seq<nat>, next: nat) {
    && (forall i, j | 0 <= i < j < |q| :: q[i].ticket < q[j].ticket && q[i].attempt != q[j].attempt)
    && (forall i | 0 <= i < |q| :: q[i].ticket < next)
    && (forall i, j | 0 <= i < j < |served| :: served[i] < served[j])
    && (forall i, j | 0 <= i < |served| && 0 <= j < |q| :: served[i] < q[j].ticket)
    && (forall i | 0 <= i < |served| :: served[i] < next)
  }

  /** In-flight ids are exactly the queued and the active ones, each once. */
  ghost predicate FlightOk(inFlight: set<Attempt>, q: seq<Waiter>, live: map<Attempt, nat>) {
    inFlight == Waiting(q) + live.Keys && Waiting(q) !! live.Keys
  }

  ghost predicate CountsOk(s: State) {
    && s.active == |s.live| <= s.limits.maxUploads && s.reserved == s.limits.reservation * s.active
    && |s.queue| <= s.limits.queueMax
  }

  /** One drain at a time; its head, while still waiting, is the head of the queue, and a slot is free for it. */
  ghost predicate DrainOk(s: State) {
    && |s.frames| <= 1
    && (|s.frames| == 1 ==> s.frames[0].ticket < s.next)
    && (|s.frames| == 1 ==> s.active < s.limits.maxUploads)
    && (|s.frames| == 1 ==> forall j | 0 <= j < |s.queue| :: s.frames[0].ticket <= s.queue[j].ticket)
    && (|s.frames| == 1 ==> forall j | 0 <= j < |s.queue| && s.queue[j].ticket == s.frames[0].ticket :: s.queue[j] == s.frames[0])
  }

  /** Everything but whether somebody is draining. */
  ghost predicate Core(s: State) {
    && s.limits.Valid() && Ordered(s.queue, s.served, s.next) && FlightOk(s.inFlight, s.queue, s.live)
    && CountsOk(s) && (s.closed ==> s.queue == []) && (s.closeResolved <==> s.closed && s.active == 0)
  }

  ghost predicate Inv(s: State) {
    Core(s) && DrainOk(s) && (s.draining <==> |s.frames| == 1) && (!s.draining ==> !MayDrain(s))
  }

  // ----- lemmas on the parts

  lemma WithoutFirst<T>(q: seq<T>)
    requires q != []
    ensures q[..0] + q[1..] == Without(q, 0)
  {}

  lemma OrderedWithout(q: seq<Waiter>, served: seq<nat>, next: nat, i: nat)
    requires Ordered(q, served, next) && i < |q|
    ensures Ordered(Without(q, i), served, next)
    ensures i == 0 ==> Ordered(Without(q, i), served + [q[0].ticket], next)
  {
    WithoutAt(q, i);
    hide Without;
  }

  lemma WaitingPlus(q: seq<Waiter>, w: Waiter)
    ensures Waiting(q + [w]) == Waiting(q) + {w.attempt}
  {
    forall a | a in Waiting(q) + {w.attempt} ensures a in Waiting(q + [w]) {
      if a in Waiting(q) {
        var x :| x in q && x.attempt == a;
        assert x in q + [w];
      } else {
        assert w in q + [w];
      }
    }
  }

  lemma WaitingWithout(q: seq<Waiter>, served: seq<nat>, next: nat, i: nat)
    requires Ordered(q, served, next) && i < |q|
    ensures Waiting(Without(q, i)) == Waiting(q) - {q[i].attempt} && q[i].attempt in Waiting(q)
  {
    WithoutAt(q, i);
    var r := Without(q, i);
    forall a | a in Waiting(q) && a != q[i].attempt ensures a in Waiting(r) {
      var x :| x in q && x.attempt == a;
      var j :| 0 <= j < |q| && q[j] == x;
      assert r[if j < i then j else j - 1] == x;
    }
  }

  lemma LiveMore(live: map<Attempt, nat>, a: Attempt, t: nat)
    ensures a !in live ==> |live[a := t]| == |live| + 1
    ensures a in live ==> |live - {a}| == |live| - 1
    ensures live[a := t].Keys == live.Keys + {a} && (live - {a}).Keys == live.Keys - {a}
  {
    assert live[a := t].Keys == live.Keys + {a} && (live - {a}).Keys == live.Keys - {a};
    assert |live| == |live.Keys| && |live[a := t]| == |live[a := t].Keys| && |live - {a}| == |(live - {a}).Keys|;
  }

  lemma MoreBytes(limits: Limits, n: int)
    ensures limits.reservation * (n + 1) == limits.reservation * n + limits.reservation
  {}

  // ----- every segment keeps the invariant

  lemma DismissedCore(s: State, ticket: nat)
    requires Core(s)
    ensures Core(Dismissed(s, ticket))
  {
    hide Waiting, Ordered, Without;
    var i := Position(s.queue, ticket);
    if i < |s.queue| {
      WithoutAt(s.queue, i);
      OrderedWithout(s.queue, s.served, s.next, i);
      WaitingWithout(s.queue, s.served, s.next, i);
    }
  }

  /** Leaving the queue does not move the head before the one being measured. */
  lemma DismissedDrain(s: State, ticket: nat)
    requires DrainOk(s)
    ensures DrainOk(Dismissed(s, ticket))
  {
    var i := Position(s.queue, ticket);
    if i < |s.queue| {
      WithoutAt(s.queue, i);
      hide Without;
    }
  }

  /** The core does not look at the drain. */
  lemma CoreApart(s: State, draining: bool, frames: seq<Waiter>)
    requires Core(s)
    ensures Core(s.(draining := draining, frames := frames))
  {
    hide FlightOk, Ordered;
  }

  lemma CoreOrdered(s: State)
    requires Core(s)
    ensures Ordered(s.queue, s.served, s.next)
  {
    hide FlightOk, CountsOk;
  }

  lemma LoopKeeps(s: State)
    requires Core(s) && s.frames == [] && s.draining
    ensures Inv(Loop(s))
  {
    hide FlightOk;
  }

  lemma KickedKeeps(s: State)
    requires Core(s) && DrainOk(s) && (s.draining <==> |s.frames| == 1)
    ensures Inv(Kicked(s))
  {
    hide FlightOk, Ordered, CountsOk, Loop;
    if !s.closed && !s.draining {
      CoreApart(s, true, s.frames);
      LoopKeeps(s.(draining := true));
    }
  }

  lemma FlightGranted(inFlight: set<Attempt>, q: seq<Waiter>, served: seq<nat>, next: nat, live: map<Attempt, nat>)
    requires Ordered(q, served, next) && FlightOk(inFlight, q, live) && q != []
    ensures FlightOk(inFlight, Without(q, 0), live[q[0].attempt := q[0].ticket]) && q[0].attempt !in live
  {
    hide Waiting, Ordered, Without;
    WaitingWithout(q, served, next, 0);
    LiveMore(live, q[0].attempt, q[0].ticket);
    assert Waiting(q) - {q[0].attempt} + (live.Keys + {q[0].attempt}) == inFlight;
  }

  lemma GrantedCore(s: State, w: Waiter)
    requires Core(s) && !s.closed && s.active < s.limits.maxUploads && s.queue != [] && s.queue[0] == w
    ensures Core(Granted(s, w))
  {
    hide Waiting, Ordered, Without, FlightOk;
    assert Position(s.queue, w.ticket) == 0;
    OrderedWithout(s.queue, s.served, s.next, 0);
    FlightGranted(s.inFlight, s.queue, s.served, s.next, s.live);
    WithoutAt(s.queue, 0);
    LiveMore(s.live, w.attempt, w.ticket);
    MoreBytes(s.limits, s.active);
  }

  /** The drain decides about its head, and goes back to the head of its loop. */
  lemma ResumeKeeps(s: State, available: Option<int>, aborted: bool)
    requires Inv(s) && |s.frames| == 1
    ensures Inv(Step(s, Resume(0, available, aborted)))
  {
    hide FlightOk, Ordered, CountsOk, Without, Loop;
    var t, w := s.(frames := Without(s.frames, 0)), s.frames[0];
    WithoutAt(s.frames, 0);
    CoreApart(s, s.draining, t.frames);
    var i := Position(s.queue, w.ticket);
    if i < |s.queue| {
      HeadFirst(s, i);
    }
    DismissedCore(t, w.ticket);
    var d := Decided(t, w, available, aborted);
    if i < |s.queue| && !s.closed && d == Granted(t, w) {
      GrantedCore(t, w);
    }
    LoopKeeps(d);
  }

  lemma HeadFirst(s: State, i: nat)
    requires Core(s) && DrainOk(s) && |s.frames| == 1 && i < |s.queue| && s.queue[i].ticket == s.frames[0].ticket
    ensures i == 0 && s.queue[0] == s.frames[0]
  {
    hide FlightOk, CountsOk;
  }

  lemma OrderedPlus(q: seq<Waiter>, served: seq<nat>, next: nat, attempt: Attempt)
    requires Ordered(q, served, next) && attempt !in Waiting(q)
    ensures Ordered(q + [Waiter(next, attempt)], served, next + 1)
  {
    forall i | 0 <= i < |q| ensures q[i].attempt != attempt {
      assert q[i] in q;
    }
    hide Waiting;
  }

  lemma FlightPlus(inFlight: set<Attempt>, q: seq<Waiter>, live: map<Attempt, nat>, w: Waiter)
    requires FlightOk(inFlight, q, live) && w.attempt !in inFlight
    ensures FlightOk(inFlight + {w.attempt}, q + [w], live)
  {
    hide Waiting;
    WaitingPlus(q, w);
  }

  lemma EnteredCore(s: State, attempt: Attempt)
    requires Core(s) && !s.closed && attempt !in s.inFlight && |s.queue| < s.limits.queueMax
    ensures Core(Entered(s, attempt))
  {
    hide FlightOk, Ordered, Waiting;
    NotWaiting(s.inFlight, s.queue, s.live, attempt);
    OrderedPlus(s.queue, s.served, s.next, attempt);
    FlightPlus(s.inFlight, s.queue, s.live, Waiter(s.next, attempt));
  }

  lemma NotWaiting(inFlight: set<Attempt>, q: seq<Waiter>, live: map<Attempt, nat>, attempt: Attempt)
    requires FlightOk(inFlight, q, live) && attempt !in inFlight
    ensures attempt !in Waiting(q)
  {
    hide Waiting;
  }

  lemma AcquireKeeps(s: State, attempt: Attempt)
    requires Inv(s) && !s.closed && attempt !in s.inFlight && |s.queue| < s.limits.queueMax
    ensures Inv(Step(s, Acquire(attempt, false)))
  {
    hide Kicked, Core, DrainOk;
    EnteredCore(s, attempt);
    CoreOrdered(s);
    AppendDrain(s, Waiter(s.next, attempt));
    KickedKeeps(Entered(s, attempt));
  }

  lemma AppendDrain(s: State, w: Waiter)
    requires DrainOk(s) && Ordered(s.queue, s.served, s.next) && w.ticket == s.next
    ensures DrainOk(Entered(s, w.attempt))
  {}

  lemma ReleaseCore(s: State, attempt: Attempt)
    requires Core(s) && attempt in s.live
    ensures var t := s.(active := s.active - 1, reserved := s.reserved - s.limits.reservation, live := s.live - {attempt},
                        inFlight := s.inFlight - {attempt});
            Core(t.(closeResolved := t.closed && t.active == 0)) && (!s.closed ==> Core(t))
  {
    hide Waiting, Ordered;
    LiveMore(s.live, attempt, 0);
    MoreBytes(s.limits, s.active - 1);
    assert s.inFlight - {attempt} == Waiting(s.queue) + (s.live.Keys - {attempt});
  }

  lemma ReleaseKeeps(s: State, attempt: Attempt, permit: nat)
    requires Inv(s)
    ensures Inv(Step(s, Release(attempt, permit)))
  {
    hide FlightOk, Ordered, CountsOk, Kicked;
    if attempt in s.live && s.live[attempt] == permit {
      ReleaseCore(s, attempt);
      var t := s.(active := s.active - 1, reserved := s.reserved - s.limits.reservation, live := s.live - {attempt},
                  inFlight := s.inFlight - {attempt});
      if !s.closed {
        KickedKeeps(t);
      }
    }
  }

  lemma DismissKeeps(s: State, ticket: nat)
    requires Inv(s)
    ensures Inv(Step(s, Dismiss(ticket)))
  {
    hide Core, DrainOk, Kicked;
    if Position(s.queue, ticket) < |s.queue| {
      DismissedCore(s, ticket);
      DismissedDrain(s, ticket);
      KickedKeeps(Dismissed(s, ticket));
    }
  }

  lemma {:induction false} AllDismissedCore(s: State)
    requires Core(s) && DrainOk(s)
    ensures var t := AllDismissed(s);
            && Core(t) && DrainOk(t) && t.queue == [] && t.closed == s.closed && t.closeResolved == s.closeResolved
            && t.active == s.active && t.draining == s.draining && t.frames == s.frames && t.live == s.live
    decreases |s.queue|
  {
    if s.queue != [] {
      assert Position(s.queue, s.queue[0].ticket) == 0;
      DismissedCore(s, s.queue[0].ticket);
      DismissedDrain(s, s.queue[0].ticket);
      WithoutAt(s.queue, 0);
      hide Core, DrainOk, Without;
      AllDismissedCore(Dismissed(s, s.queue[0].ticket));
    }
  }

  lemma CloseKeeps(s: State)
    requires Inv(s) && !s.closed
    ensures Inv(Step(s, Close))
  {
    hide FlightOk, Ordered, AllDismissed;
    AllDismissedCore(s);
  }

  /** Main step. */
  lemma StepKeeps(s: State, e: Event)
    requires Inv(s)
    ensures Inv(Step(s, e))
  {
    hide Core, DrainOk, Kicked, Loop, Decided, Dismissed, AllDismissed;
    match e
    case Acquire(attempt, refused) =>
      if !s.closed && !refused && attempt !in s.inFlight && |s.queue| < s.limits.queueMax { AcquireKeeps(s, attempt); }
    case Dismiss(ticket) => DismissKeeps(s, ticket);
    case Resume(k, available, aborted) => if k < |s.frames| { OneFrame(s); ResumeKeeps(s, available, aborted); }
    case Release(attempt, permit) => ReleaseKeeps(s, attempt, permit);
    case Close => if !s.closed { CloseKeeps(s); }
  }

  lemma OneFrame(s: State)
    requires Inv(s)
    ensures |s.frames| <= 1
  {}

  lemma InitialInv(limits: Limits)
    requires limits.Valid()
    ensures Inv(Initial(limits))
  {
    assert Waiting([]) == {};
  }

  lemma {:induction false} LimitsKept(s: State, e: Event)
    ensures Step(s, e).limits == s.limits
  {
    hide Without, AllDismissed;
    if e.Close? { LimitsDismissed(s); }
  }

  lemma {:induction false} LimitsDismissed(s: State)
    ensures AllDismissed(s).limits == s.limits
    decreases |s.queue|
  {
    if s.queue != [] {
      LimitsDismissed(s.(queue := Without(s.queue, 0), inFlight := s.inFlight - {s.queue[0].attempt}));
    }
  }

  /** Main result: the invariant in every reachable state. */
  lemma {:induction false} AlwaysInv(limits: Limits, events: seq<Event>)
    requires limits.Valid()
    ensures Inv(Run(limits, events)) && Run(limits, events).limits == limits
    decreases |events|
  {
    hide Inv, Step;
    if events == [] {
      InitialInv(limits);
    } else {
      AlwaysInv(limits, events[..|events| - 1]);
      StepKeeps(Run(limits, events[..|events| - 1]), events[|events| - 1]);
      LimitsKept(Run(limits, events[..|events| - 1]), events[|events| - 1]);
    }
  }

  // ----- what callers rely on

  /** In every reachable state: at most one drain is in progress; uploads are within the cap and bytes conserved;
      in-flight ids are the disjoint union of queued and active ones; grants went out in arrival order and before
      everyone still waiting; while open and not draining the queue is empty or every slot is taken; and closing
      has resolved exactly when it was asked for and no upload is active. */
  lemma Accounts(limits: Limits, events: seq<Event>)
    requires limits.Valid()
    ensures var s := Run(limits, events);
            && |s.frames| <= 1 && (s.draining <==> |s.frames| == 1)
            && s.active == |s.live| <= limits.maxUploads && s.reserved == limits.reservation * |s.live|
            && s.inFlight == Waiting(s.queue) + s.live.Keys && Waiting(s.queue) !! s.live.Keys
            && (forall i, j | 0 <= i < j < |s.served| :: s.served[i] < s.served[j])
            && (forall i, j | 0 <= i < |s.served| && 0 <= j < |s.queue| :: s.served[i] < s.queue[j].ticket)
            && (!s.closed && !s.draining ==> s.queue == [] || s.active == limits.maxUploads)
            && (s.closeResolved <==> s.closed && s.live == map[])
  {
    hide Run, Waiting;
    AlwaysInv(limits, events);
  }

  /** A resumed drain grants exactly the waiter at the head of the queue, when it still waits there and there is
      room for the floor and every reservation, its own included. */
  lemma GrantedWhen(s: State, available: Option<int>, aborted: bool)
    requires Inv(s) && |s.frames| == 1
    ensures var t, w := Step(s, Resume(0, available, aborted)), s.frames[0];
            t.served == if !s.closed && s.queue != [] && s.queue[0] == w && !aborted && available.Some? && available.value >= 0
                           && available.value >= s.limits.floor + s.limits.reservation * (s.active + 1)
                        then s.served + [w.ticket] else s.served
  {
    hide FlightOk, Ordered, Without;
    MoreBytes(s.limits, s.active);
    var i := Position(s.queue, s.frames[0].ticket);
    if i < |s.queue| {
      HeadFirst(s, i);
    }
  }

  /** An upload is queued, at the end, exactly when the admission is open, the request valid, its attempt neither
      queued nor active and the queue has room; then somebody drains if there is a slot. Otherwise nothing changes. */
  lemma AcquireDecided(limits: Limits, events: seq<Event>, attempt: Attempt, refused: bool)
    requires limits.Valid()
    ensures var s := Run(limits, events); var t := Step(s, Acquire(attempt, refused));
            if !s.closed && !refused && attempt !in Waiting(s.queue) && attempt !in s.live && |s.queue| < limits.queueMax
            then && t.queue == s.queue + [Waiter(s.next, attempt)] && t.live == s.live && t.served == s.served
                 && (|s.live| < limits.maxUploads ==> t.draining)
            else t == s
  {
    hide Run, Waiting, Ordered;
    AlwaysInv(limits, events);
  }

  /** A timeout or an abort takes exactly its waiter out, and its attempt is in flight no more. */
  lemma DismissLeaves(limits: Limits, events: seq<Event>, i: nat)
    requires limits.Valid() && i < |Run(limits, events).queue|
    ensures var s := Run(limits, events); var w := s.queue[i]; var t := Step(s, Dismiss(w.ticket));
            t.queue == s.queue[..i] + s.queue[i + 1..] && w.attempt !in t.inFlight && t.live == s.live && t.served == s.served
  {
    hide Run, FlightOk, CountsOk;
    AlwaysInv(limits, events);
    var s := Run(limits, events);
    OwnPosition(s.queue, s.served, s.next, i);
    hide Ordered;
  }

  lemma OwnPosition(q: seq<Waiter>, served: seq<nat>, next: nat, i: nat)
    requires Ordered(q, served, next) && i < |q|
    ensures Position(q, q[i].ticket) == i
  {}

  /** A first release frees exactly its slot, its bytes and its attempt, and somebody drains if anyone waits; any
      other release changes nothing. */
  lemma ReleaseFrees(limits: Limits, events: seq<Event>, attempt: Attempt, permit: nat)
    requires limits.Valid()
    ensures var s := Run(limits, events); var t := Step(s, Release(attempt, permit));
            if attempt in s.live && s.live[attempt] == permit
            then && t.live == s.live - {attempt} && t.active == s.active - 1 && t.reserved == s.reserved - limits.reservation
                 && t.inFlight == s.inFlight - {attempt} && t.queue == s.queue && t.served == s.served
                 && (!s.closed && s.queue != [] ==> t.draining)
            else t == s
  {
    hide Run, FlightOk, Ordered;
    AlwaysInv(limits, events);
    var s := Run(limits, events);
    if attempt in s.live { LiveMore(s.live, attempt, 0); }
  }

  /** Resuming the drain settles the waiter it measured for, if that still waits and the admission is open: it leaves
      the queue, granted or refused. Closing leaves nobody in the queue and no slot is taken away. */
  lemma ResumeSettles(s: State, available: Option<int>, aborted: bool)
    requires Inv(s) && |s.frames| == 1
    ensures var t := Step(s, Resume(0, available, aborted));
            t.queue == if !s.closed && s.queue != [] && s.queue[0] == s.frames[0] then s.queue[1..] else s.queue
  {
    hide FlightOk, Ordered, CountsOk, Without, Loop;
    var i := Position(s.queue, s.frames[0].ticket);
    if i < |s.queue| {
      HeadFirst(s, i);
      Tail(s.queue);
    }
    LoopLooks(Decided(s.(frames := Without(s.frames, 0)), s.frames[0], available, aborted));
  }

  lemma LoopLooks(s: State)
    ensures Loop(s).queue == s.queue
  {}

  lemma Tail(q: seq<Waiter>)
    requires q != []
    ensures Without(q, 0) == q[1..]
  {}

  lemma CloseEmpties(s: State)
    requires Inv(s)
    ensures var t := Step(s, Close); t.closed && t.queue == [] && t.live == s.live && t.served == s.served
  {
    hide FlightOk, Ordered, AllDismissed;
    AllDismissedCore(s);
    ServedStays(s);
  }

  lemma {:induction false} ServedStays(s: State)
    ensures AllDismissed(s).served == s.served
    decreases |s.queue|
  {
    if s.queue != [] {
      ServedStays(s.(queue := Without(s.queue, 0), inFlight := s.inFlight - {s.queue[0].attempt}));
    }
  }

  // ----- the class as the source writes it

  class BootstrapUploadAdmission {
    const limits: Limits
    var activeUploads: int
    var reservedBytes: int
    var draining: bool
    var frames: seq<Waiter>
    var queue: seq<Waiter>
    var attemptsInFlight: set<Attempt>
    var live: map<Attempt, nat>
    var closed: bool
    var closeResolved: bool
    var next: nat
    ghost var served: seq<nat>

    ghost function Now(): State
      reads this
    {
      State(limits, activeUploads, reservedBytes, draining, frames, queue, attemptsInFlight, live, closed, closeResolved,
            served, next)
    }

    ghost predicate Valid()
      reads this
    {
      Inv(Now())
    }

    constructor (limits: Limits)
      requires limits.Valid()
      ensures Valid() && Now() == Initial(limits)
    {
      hide Inv;
      this.limits := limits;
      activeUploads, reservedBytes, draining, frames, queue, attemptsInFlight := 0, 0, false, [], [], {};
      live, closed, closeResolved, next, served := map[], false, false, 0, [];
      new;
      assert Now() == Initial(limits);
      InitialInv(limits);
    }

    method AcquireUpload(attempt: Attempt, refused: bool)
      requires Valid()
      modifies this`queue, this`attemptsInFlight, this`next, this`frames, this`draining
      ensures Valid() && Now() == Step(old(Now()), Acquire(attempt, refused))
    {
      hide Inv, Kicked;
      StepKeeps(Now(), Acquire(attempt, refused));
      if closed || refused || attempt in attemptsInFlight || |queue| >= limits.queueMax {
        return;
      }
      attemptsInFlight := attemptsInFlight + {attempt};
      queue := queue + [Waiter(next, attempt)];
      next := next + 1;
      KickDrain();
    }

    method KickDrain()
      modifies this`frames, this`draining
      ensures Now() == Kicked(old(Now()))
    {
      if !closed && !draining {
        draining := true;
        DrainLoop();
      }
    }

    /** The head of `#drainQueue`'s loop, up to its await or its `finally`. */
    method DrainLoop()
      modifies this`frames, this`draining
      ensures Now() == Loop(old(Now()))
    {
      if !closed && activeUploads < limits.maxUploads && |queue| > 0 {
        frames := frames + [queue[0]];
      } else {
        draining := false;
      }
    }

    method RemoveWaiter(ticket: nat, retainAttempt: bool) returns (removed: bool)
      modifies this`queue, this`attemptsInFlight
      ensures var i := Position(old(queue), ticket);
              && removed == (i < |old(queue)|)
              && (removed ==> queue == Without(old(queue), i)) && (!removed ==> queue == old(queue))
              && attemptsInFlight == if removed && !retainAttempt then old(attemptsInFlight) - {old(queue)[i].attempt}
                                     else old(attemptsInFlight)
    {
      var i := Position(queue, ticket);
      removed := i < |queue|;
      if removed {
        var attempt := queue[i].attempt;
        queue := queue[..i] + queue[i + 1..];
        if !retainAttempt {
          attemptsInFlight := attemptsInFlight - {attempt};
        }
      }
    }

    /** A queue timeout or an abort. */
    method RemoveAndReject(ticket: nat)
      requires Valid()
      modifies this`queue, this`attemptsInFlight, this`frames, this`draining
      ensures Valid() && Now() == Step(old(Now()), Dismiss(ticket))
    {
      hide Inv, Kicked, Without;
      StepKeeps(Now(), Dismiss(ticket));
      var removed := RemoveWaiter(ticket, false);
      if removed {
        KickDrain();
      }
    }

    /** `#drainQueue` after its await: decide about the waiter taken before it, and go round the loop. */
    method ResumeDrain(available: Option<int>, aborted: bool)
      requires Valid() && |frames| == 1
      modifies this`queue, this`attemptsInFlight, this`activeUploads, this`reservedBytes, this`live, this`served, this`frames, this`draining
      ensures Valid() && Now() == Step(old(Now()), Resume(0, available, aborted))
    {
      hide Inv, Loop, Without, Decided;
      StepKeeps(Now(), Resume(0, available, aborted));
      var waiter := frames[0];
      frames := frames[..0] + frames[1..];
      WithoutFirst(old(frames));
      Decide(waiter, available, aborted);
      DrainLoop();
    }

    method Decide(waiter: Waiter, available: Option<int>, aborted: bool)
      modifies this`queue, this`attemptsInFlight, this`activeUploads, this`reservedBytes, this`live, this`served
      ensures Now() == Decided(old(Now()), waiter, available, aborted)
    {
      hide Without;
      if available.None? || available.value < 0 {
        var removed := RemoveWaiter(waiter.ticket, false);
      } else if Position(queue, waiter.ticket) < |queue| && !closed {
        if aborted || available.value < limits.floor + reservedBytes + limits.reservation {
          var removed := RemoveWaiter(waiter.ticket, false);
        } else {
          var removed := RemoveWaiter(waiter.ticket, true);
          activeUploads := activeUploads + 1;
          reservedBytes := reservedBytes + limits.reservation;
          live := live[waiter.attempt := waiter.ticket];
          served := served + [waiter.ticket];
        }
      }
    }

    /** A permit's `release`, which does nothing the second time. */
    method ReleasePermit(attempt: Attempt, permit: nat)
      requires Valid()
      modifies this`activeUploads, this`reservedBytes, this`live, this`attemptsInFlight, this`closeResolved, this`frames, this`draining
      ensures Valid() && Now() == Step(old(Now()), Release(attempt, permit))
    {
      hide Inv, Kicked;
      StepKeeps(Now(), Release(attempt, permit));
      if attempt !in live || live[attempt] != permit {
        return;
      }
      live := live - {attempt};
      activeUploads := activeUploads - 1;
      reservedBytes := reservedBytes - limits.reservation;
      attemptsInFlight := attemptsInFlight - {attempt};
      if closed {
        closeResolved := activeUploads == 0;
      } else {
        KickDrain();
      }
    }

    method CloseAdmission()
      requires Valid()
      modifies this`queue, this`attemptsInFlight, this`closed, this`closeResolved
      ensures Valid() && Now() == Step(old(Now()), Close)
    {
      hide Inv, Without;
      StepKeeps(Now(), Close);
      if closed {
        return;
      }
      ghost var was := Now();
      while queue != []
        invariant AllDismissed(Now()) == AllDismissed(was) && Now().(queue := [], inFlight := {}) == was.(queue := [], inFlight := {})
        decreases |queue|
      {
        WithoutAt(queue, 0);
        var removed := RemoveWaiter(queue[0].ticket, false);
      }
      closed := true;
      closeResolved := activeUploads == 0;
    }
  }
}
