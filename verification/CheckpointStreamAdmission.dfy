/** Admission of checkpoint transfers: staging reservations taken in two segments around an await, a stream queue
    drained synchronously, releases deferred while a stream is in flight, and a draining close. */
module CheckpointStreamAdmission {
  import opened Common

  type Project = nat

  /** A transfer attempt: project and operation. */
  datatype Key = Key(project: Project, operation: nat)

  datatype Limits = Limits(maxStreams: int, maxStreamsPerProject: int, maxAttempts: int, maxAttemptsPerProject: int,
                           queueMax: int, queueMaxPerProject: int, reservation: int, floor: int) {
    predicate Normalized() {
      && maxStreamsPerProject > 0 && maxAttemptsPerProject > 0 && queueMaxPerProject > 0 && reservation > 0 && floor > 0
      && maxStreamsPerProject < maxStreams && maxAttemptsPerProject < maxAttempts && queueMaxPerProject < queueMax
    }
  }

  // ----- per-project counters

  ghost function Of(s: set<Key>, p: Project): set<Key> { set k | k in s && k.project == p }

  function At(m: map<Project, int>, p: Project): int { if p in m then m[p] else 0 }

  /** A counter map counts a set: no entry is zero, none is missing. */
  ghost predicate Tallies(m: map<Project, int>, s: set<Key>) {
    forall p :: At(m, p) == |Of(s, p)| && (p in m <==> |Of(s, p)| > 0)
  }

  function Plus(m: map<Project, int>, p: Project): map<Project, int> { m[p := At(m, p) + 1] }

  function Minus(m: map<Project, int>, p: Project): map<Project, int> {
    var count := (if p in m then m[p] else 1) - 1;
    if count == 0 then m - {p} else m[p := count]
  }

  lemma OfPlus(s: set<Key>, k: Key, p: Project)
    requires k !in s
    ensures |Of(s + {k}, p)| == |Of(s, p)| + if k.project == p then 1 else 0
  {
    assert Of(s + {k}, p) == Of(s, p) + if k.project == p then {k} else {};
  }

  lemma TallyPlus(m: map<Project, int>, s: set<Key>, k: Key)
    requires Tallies(m, s) && k !in s
    ensures Tallies(Plus(m, k.project), s + {k})
  {
    hide Of;
    forall p
      ensures At(Plus(m, k.project), p) == |Of(s + {k}, p)|
      ensures p in Plus(m, k.project) <==> |Of(s + {k}, p)| > 0
    {
      OfPlus(s, k, p);
      assert At(m, p) == |Of(s, p)|;
    }
  }

  lemma TallyMinus(m: map<Project, int>, s: set<Key>, k: Key)
    requires Tallies(m, s) && k in s
    ensures Tallies(Minus(m, k.project), s - {k})
  {
    hide Of;
    assert s - {k} + {k} == s;
    forall p
      ensures At(Minus(m, k.project), p) == |Of(s - {k}, p)|
      ensures p in Minus(m, k.project) <==> |Of(s - {k}, p)| > 0
    {
      OfPlus(s - {k}, k, p);
      assert At(m, p) == |Of(s, p)|;
      assert At(m, k.project) == |Of(s, k.project)|;
    }
  }

  // ----- staging reservations

  /** The record of a held reservation; `id` is its identity. */
  datatype Record = Record(id: nat, releaseRequested: bool)

  /** What a `release` closure captures. */
  datatype Handle = Handle(key: Key, released: bool)

  datatype Staging = Staging(claims: set<Key>, claimCount: map<Project, int>, pending: set<Key>,
                             held: map<Key, Record>, reserved: int, handles: map<nat, Handle>)

  /** What `n` reservations take up. */
  function Bytes(limits: Limits, n: int): int { limits.reservation * n }

  lemma BytesMore(limits: Limits, n: int)
    ensures Bytes(limits, n + 1) == Bytes(limits, n) + limits.reservation
  {}

  lemma HeldMore(held: map<Key, Record>, key: Key, r: Record)
    ensures held[key := r].Keys == held.Keys + {key} && (held - {key}).Keys == held.Keys - {key}
    ensures |held[key := r]| == |held| + if key in held then 0 else 1
    ensures key in held ==> |held - {key}| == |held| - 1
  {
    assert held[key := r].Keys == held.Keys + {key} && (held - {key}).Keys == held.Keys - {key};
    assert |held| == |held.Keys| && |held[key := r]| == |held[key := r].Keys| && |held - {key}| == |(held - {key}).Keys|;
  }

  ghost predicate ClaimsOk(limits: Limits, claims: set<Key>, count: map<Project, int>) {
    |claims| <= limits.maxAttempts && Tallies(count, claims) && forall p :: At(count, p) <= limits.maxAttemptsPerProject
  }

  lemma ClaimsPlus(limits: Limits, claims: set<Key>, count: map<Project, int>, key: Key)
    requires ClaimsOk(limits, claims, count) && key !in claims
    requires |claims| < limits.maxAttempts && At(count, key.project) < limits.maxAttemptsPerProject
    ensures ClaimsOk(limits, claims + {key}, Plus(count, key.project))
  {
    hide Tallies, At, Plus;
    TallyPlus(count, claims, key);
    PlusBounded(count, key.project, limits.maxAttemptsPerProject);
  }

  lemma ClaimsMinus(limits: Limits, claims: set<Key>, count: map<Project, int>, key: Key)
    requires limits.Normalized() && ClaimsOk(limits, claims, count) && key in claims
    ensures ClaimsOk(limits, claims - {key}, Minus(count, key.project))
  {
    hide Tallies, At, Minus;
    TallyMinus(count, claims, key);
    MinusBounded(count, claims, key.project, limits.maxAttemptsPerProject);
  }

  /** Claims are exactly the held and the pending reservations, within both caps; bytes are conserved. */
  ghost predicate StagingOk(limits: Limits, s: Staging) {
    && s.claims == s.pending + s.held.Keys && s.pending !! s.held.Keys
    && ClaimsOk(limits, s.claims, s.claimCount)
    && s.reserved == Bytes(limits, |s.held|)
  }

  /** A handle not yet used belongs to the record held under its key, and no release was asked of that record. */
  ghost predicate HandlesOk(s: Staging) {
    && (forall id | id in s.handles && !s.handles[id].released ::
          var key := s.handles[id].key; key in s.held && s.held[key] == Record(id, false))
    && (forall key | key in s.held :: s.held[key].id in s.handles && s.handles[s.held[key].id].key == key)
  }

  predicate MayClaim(limits: Limits, s: Staging, key: Key) {
    key !in s.claims && |s.claims| < limits.maxAttempts && At(s.claimCount, key.project) < limits.maxAttemptsPerProject
  }

  function Claimed(s: Staging, key: Key): Staging {
    s.(claims := s.claims + {key}, claimCount := Plus(s.claimCount, key.project), pending := s.pending + {key})
  }

  /** The pending reservation ends without being kept. */
  function Unclaimed(s: Staging, key: Key): Staging {
    s.(claims := s.claims - {key}, claimCount := Minus(s.claimCount, key.project), pending := s.pending - {key})
  }

  function Kept(limits: Limits, s: Staging, key: Key, id: nat): Staging {
    s.(pending := s.pending - {key}, held := s.held[key := Record(id, false)], reserved := s.reserved + limits.reservation,
       handles := s.handles[id := Handle(key, false)])
  }

  /** `#finalizeAttemptReservation` on the record held. */
  function Finalized(limits: Limits, s: Staging, key: Key): Staging {
    s.(claims := s.claims - {key}, claimCount := Minus(s.claimCount, key.project), held := s.held - {key},
       reserved := s.reserved - limits.reservation)
  }

  /** `release` called for the first time. */
  function Asked(s: Staging, id: nat): Staging
    requires id in s.handles
  {
    var key := s.handles[id].key;
    s.(handles := s.handles[id := Handle(key, true)],
       held := if key in s.held then s.held[key := s.held[key].(releaseRequested := true)] else s.held)
  }

  lemma ClaimedKeeps(limits: Limits, s: Staging, key: Key)
    requires StagingOk(limits, s) && MayClaim(limits, s, key)
    ensures StagingOk(limits, Claimed(s, key))
  {
    hide ClaimsOk, Bytes, Plus;
    ClaimsPlus(limits, s.claims, s.claimCount, key);
    assert s.pending + {key} + s.held.Keys == s.claims + {key};
  }

  lemma PlusBounded(m: map<Project, int>, p: Project, bound: int)
    requires At(m, p) < bound && forall q :: At(m, q) <= bound
    ensures forall q :: At(Plus(m, p), q) <= bound
  {
    forall q ensures At(Plus(m, p), q) <= bound {
      assert At(m, q) <= bound;
    }
  }

  lemma MinusBounded(m: map<Project, int>, s: set<Key>, p: Project, bound: int)
    requires Tallies(m, s) && bound >= 0 && forall q :: At(m, q) <= bound
    ensures forall q :: At(Minus(m, p), q) <= bound
  {
    forall q ensures At(Minus(m, p), q) <= bound {
      assert At(m, q) <= bound;
    }
  }

  lemma UnclaimedKeeps(limits: Limits, s: Staging, key: Key)
    requires limits.Normalized() && StagingOk(limits, s) && key in s.pending
    ensures StagingOk(limits, Unclaimed(s, key))
  {
    hide ClaimsOk, Minus, Bytes;
    ClaimsMinus(limits, s.claims, s.claimCount, key);
    assert s.pending - {key} + s.held.Keys == s.claims - {key};
  }

  lemma KeptKeeps(limits: Limits, s: Staging, key: Key, id: nat)
    requires StagingOk(limits, s) && key in s.pending
    ensures StagingOk(limits, Kept(limits, s, key, id))
  {
    hide ClaimsOk, Bytes;
    HeldMore(s.held, key, Record(id, false));
    BytesMore(limits, |s.held|);
    assert s.pending - {key} + (s.held.Keys + {key}) == s.claims;
  }

  lemma KeptHandles(limits: Limits, s: Staging, key: Key, id: nat)
    requires HandlesOk(s) && key !in s.held && id !in s.handles
    ensures HandlesOk(Kept(limits, s, key, id))
  {}

  lemma FinalizedKeeps(limits: Limits, s: Staging, key: Key)
    requires limits.Normalized() && StagingOk(limits, s) && key in s.held
    ensures StagingOk(limits, Finalized(limits, s, key))
  {
    hide ClaimsOk, Minus, Bytes;
    ClaimsMinus(limits, s.claims, s.claimCount, key);
    HeldMore(s.held, key, s.held[key]);
    BytesMore(limits, |s.held| - 1);
    assert s.pending + (s.held.Keys - {key}) == s.claims - {key};
  }

  lemma FinalizedHandles(limits: Limits, s: Staging, key: Key)
    requires HandlesOk(s) && key in s.held && s.held[key].releaseRequested
    ensures HandlesOk(Finalized(limits, s, key))
  {}

  lemma AskedKeeps(limits: Limits, s: Staging, id: nat)
    requires StagingOk(limits, s) && HandlesOk(s) && id in s.handles && !s.handles[id].released
    ensures var t, key := Asked(s, id), s.handles[id].key;
            && key in s.held && t.held == s.held[key := Record(id, true)] && t.held.Keys == s.held.Keys
            && StagingOk(limits, t) && t.pending == s.pending
  {
    hide ClaimsOk, Bytes;
    HeldMore(s.held, s.handles[id].key, Record(id, true));
  }

  lemma AskedHandles(s: Staging, id: nat)
    requires HandlesOk(s) && id in s.handles && !s.handles[id].released
    ensures HandlesOk(Asked(s, id))
  {}

  // ----- streams

  datatype Waiter = Waiter(ticket: nat, key: Key)

  /** `running` holds the permit number of each attempt's stream. */
  datatype Streams = Streams(active: int, activeCount: map<Project, int>, running: map<Key, nat>, permits: map<nat, Handle>)

  ghost predicate StreamsOk(limits: Limits, s: Streams) {
    && s.active == |s.running| <= limits.maxStreams && Tallies(s.activeCount, s.running.Keys)
    && (forall p :: At(s.activeCount, p) <= limits.maxStreamsPerProject)
  }

  ghost predicate PermitsOk(s: Streams) {
    && (forall t | t in s.permits && !s.permits[t].released ::
          s.permits[t].key in s.running && s.running[s.permits[t].key] == t)
    && (forall key | key in s.running :: s.running[key] in s.permits && s.permits[s.running[key]] == Handle(key, false))
  }

  predicate MayRun(limits: Limits, s: Streams, key: Key) {
    s.active < limits.maxStreams && At(s.activeCount, key.project) < limits.maxStreamsPerProject
  }

  function Started(s: Streams, w: Waiter): Streams {
    Streams(s.active + 1, Plus(s.activeCount, w.key.project), s.running[w.key := w.ticket],
            s.permits[w.ticket := Handle(w.key, false)])
  }

  function Stopped(s: Streams, ticket: nat): Streams
    requires ticket in s.permits
  {
    var key := s.permits[ticket].key;
    Streams(s.active - 1, Minus(s.activeCount, key.project), s.running - {key}, s.permits[ticket := Handle(key, true)])
  }

  lemma StartedKeeps(limits: Limits, s: Streams, w: Waiter)
    requires StreamsOk(limits, s) && MayRun(limits, s, w.key) && w.key !in s.running
    ensures StreamsOk(limits, Started(s, w))
  {
    hide Tallies, At, Plus;
    TallyPlus(s.activeCount, s.running.Keys, w.key);
    PlusBounded(s.activeCount, w.key.project, limits.maxStreamsPerProject);
    RunningMore(s.running, w.key, w.ticket);
  }

  lemma RunningMore(running: map<Key, nat>, key: Key, t: nat)
    ensures running[key := t].Keys == running.Keys + {key} && (running - {key}).Keys == running.Keys - {key}
    ensures |running[key := t]| == |running| + if key in running then 0 else 1
    ensures key in running ==> |running - {key}| == |running| - 1
  {
    assert running[key := t].Keys == running.Keys + {key} && (running - {key}).Keys == running.Keys - {key};
    assert |running| == |running.Keys| && |running[key := t]| == |running[key := t].Keys|;
    assert |running - {key}| == |(running - {key}).Keys|;
  }

  lemma StartedPermits(s: Streams, w: Waiter)
    requires PermitsOk(s) && w.key !in s.running && w.ticket !in s.permits
    ensures PermitsOk(Started(s, w))
  {}

  lemma StoppedKeeps(limits: Limits, s: Streams, ticket: nat)
    requires limits.Normalized() && StreamsOk(limits, s) && ticket in s.permits && s.permits[ticket].key in s.running
    ensures StreamsOk(limits, Stopped(s, ticket))
  {
    hide Tallies, At, Minus;
    var key := s.permits[ticket].key;
    TallyMinus(s.activeCount, s.running.Keys, key);
    MinusBounded(s.activeCount, s.running.Keys, key.project, limits.maxStreamsPerProject);
    RunningMore(s.running, key, ticket);
  }

  lemma StoppedPermits(s: Streams, ticket: nat)
    requires PermitsOk(s) && ticket in s.permits && !s.permits[ticket].released
    ensures PermitsOk(Stopped(s, ticket))
  {}

  // ----- the queue

  datatype Lobby = Lobby(queue: seq<Waiter>, queuedCount: map<Project, int>)

  ghost function Keys(q: seq<Waiter>): set<Key> { set w | w in q :: w.key }

  ghost predicate Distinct(q: seq<Waiter>) {
    forall i, j | 0 <= i < j < |q| :: q[i].key != q[j].key
  }

  ghost predicate LobbyOk(limits: Limits, s: Lobby) {
    && Distinct(s.queue) && |s.queue| <= limits.queueMax && Tallies(s.queuedCount, Keys(s.queue))
    && (forall p :: At(s.queuedCount, p) <= limits.queueMaxPerProject)
  }

  predicate HasRoom(limits: Limits, s: Lobby, key: Key) {
    |s.queue| < limits.queueMax && At(s.queuedCount, key.project) < limits.queueMaxPerProject
  }

  function Entered(s: Lobby, w: Waiter): Lobby { Lobby(s.queue + [w], Plus(s.queuedCount, w.key.project)) }

  function Exited(s: Lobby, i: nat): Lobby
    requires i < |s.queue|
  {
    Lobby(Without(s.queue, i), Minus(s.queuedCount, s.queue[i].key.project))
  }

  lemma KeysPlus(q: seq<Waiter>, w: Waiter)
    ensures Keys(q + [w]) == Keys(q) + {w.key}
  {
    forall k | k in Keys(q) + {w.key} ensures k in Keys(q + [w]) {
      if k in Keys(q) {
        var x :| x in q && x.key == k;
        assert x in q + [w];
      } else {
        assert w in q + [w];
      }
    }
  }

  lemma KeysWithout(q: seq<Waiter>, i: nat)
    requires Distinct(q) && i < |q|
    ensures Keys(Without(q, i)) == Keys(q) - {q[i].key} && Distinct(Without(q, i))
  {
    var r := Without(q, i);
    assert forall j | 0 <= j < |r| :: r[j] == q[if j < i then j else j + 1];
    forall k | k in Keys(q) && k != q[i].key ensures k in Keys(r) {
      var x :| x in q && x.key == k;
      var j :| 0 <= j < |q| && q[j] == x;
      assert r[if j < i then j else j - 1] == x;
    }
  }

  lemma EnteredKeeps(limits: Limits, s: Lobby, w: Waiter)
    requires LobbyOk(limits, s) && HasRoom(limits, s, w.key) && w.key !in Keys(s.queue)
    ensures LobbyOk(limits, Entered(s, w))
  {
    hide Tallies, At, Plus;
    KeysPlus(s.queue, w);
    TallyPlus(s.queuedCount, Keys(s.queue), w.key);
    PlusBounded(s.queuedCount, w.key.project, limits.queueMaxPerProject);
  }

  lemma ExitedKeeps(limits: Limits, s: Lobby, i: nat)
    requires limits.Normalized() && LobbyOk(limits, s) && i < |s.queue|
    ensures LobbyOk(limits, Exited(s, i))
  {
    hide Tallies, At, Minus, Distinct, Keys;
    KeysWithout(s.queue, i);
    InKeys(s.queue, i);
    TallyMinus(s.queuedCount, Keys(s.queue), s.queue[i].key);
    MinusBounded(s.queuedCount, Keys(s.queue), s.queue[i].key.project, limits.queueMaxPerProject);
  }

  lemma InKeys(q: seq<Waiter>, i: nat)
    requires i < |q|
    ensures q[i].key in Keys(q)
  {}

  // ----- the whole state

  datatype State = State(limits: Limits, staging: Staging, streams: Streams, lobby: Lobby, inFlight: set<Key>,
                         closed: bool, closeResolved: bool, next: nat)

  /** In flight are the queued and the running attempts; each still holds its reservation, and a reservation whose
      release was asked for is kept only for such an attempt. */
  ghost predicate LinkOk(inFlight: set<Key>, queue: seq<Waiter>, running: map<Key, nat>, held: map<Key, Record>) {
    && inFlight == running.Keys + Keys(queue) && running.Keys !! Keys(queue) && inFlight <= held.Keys
    && (forall key | key in held && held[key].releaseRequested :: key in inFlight)
  }

  ghost predicate NumbersOk(queue: seq<Waiter>, permits: map<nat, Handle>, handles: map<nat, Handle>, next: nat) {
    && (forall i, j | 0 <= i < j < |queue| :: queue[i].ticket < queue[j].ticket)
    && (forall i | 0 <= i < |queue| :: queue[i].ticket !in permits && queue[i].ticket < next)
    && (forall t | t in permits :: t < next) && (forall id | id in handles :: id < next)
  }

  predicate Empty(s: State) {
    s.streams.active == 0 && s.lobby.queue == [] && s.staging.held == map[] && s.staging.pending == {}
  }

  ghost predicate Inv(s: State) {
    && s.limits.Normalized() && StagingOk(s.limits, s.staging) && HandlesOk(s.staging)
    && StreamsOk(s.limits, s.streams) && PermitsOk(s.streams) && LobbyOk(s.limits, s.lobby)
    && LinkOk(s.inFlight, s.lobby.queue, s.streams.running, s.staging.held)
    && NumbersOk(s.lobby.queue, s.streams.permits, s.staging.handles, s.next)
    && (s.closed ==> s.lobby.queue == [])
    && (s.closeResolved ==> s.closed && Empty(s))
  }

  /** Between events: no queued stream could run, and closing has resolved as soon as all is drained. */
  ghost predicate Quiet(s: State) {
    && (forall i | 0 <= i < |s.lobby.queue| :: !MayRun(s.limits, s.streams, s.lobby.queue[i].key))
    && (s.closed && Empty(s) ==> s.closeResolved)
  }

  /** `#settleClose`. */
  function Settled(s: State): State { s.(closeResolved := s.closeResolved || (s.closed && Empty(s))) }

  /** The reservation of an attempt no longer in flight, given up if that was asked for. */
  function Landed(s: State, key: Key): State {
    var t := s.(inFlight := s.inFlight - {key});
    if key in t.staging.held && t.staging.held[key].releaseRequested
    then t.(staging := Finalized(t.limits, t.staging, key)) else t
  }

  function StartedAt(s: State, i: nat): State
    requires i < |s.lobby.queue|
  {
    s.(lobby := Exited(s.lobby, i), streams := Started(s.streams, s.lobby.queue[i]))
  }

  function FirstRunnable(s: State, i: nat): (k: nat)
    requires i <= |s.lobby.queue|
    ensures i <= k <= |s.lobby.queue|
    ensures forall j | i <= j < k :: !MayRun(s.limits, s.streams, s.lobby.queue[j].key)
    ensures k < |s.lobby.queue| ==> MayRun(s.limits, s.streams, s.lobby.queue[k].key)
    decreases |s.lobby.queue| - i
  {
    if i == |s.lobby.queue| || MayRun(s.limits, s.streams, s.lobby.queue[i].key) then i else FirstRunnable(s, i + 1)
  }

  /** `#drainQueue`. */
  function Drained(s: State): State
    decreases |s.lobby.queue|
  {
    var k := FirstRunnable(s, 0);
    if s.closed || k == |s.lobby.queue| then s else Drained(StartedAt(s, k))
  }

  function Position(q: seq<Waiter>, ticket: nat): (i: nat)
    ensures i <= |q| && (i < |q| ==> q[i].ticket == ticket)
    ensures i == |q| ==> forall w | w in q :: w.ticket != ticket
  {
    if q == [] || q[0].ticket == ticket then 0 else 1 + Position(q[1..], ticket)
  }

  /** A waiter leaves unserved. */
  function DismissedAt(s: State, i: nat): State
    requires i < |s.lobby.queue|
  {
    Landed(s.(lobby := Exited(s.lobby, i)), s.lobby.queue[i].key)
  }

  function AllDismissed(s: State): State
    decreases |s.lobby.queue|
  {
    if s.lobby.queue == [] then s else AllDismissed(DismissedAt(s, 0))
  }

  datatype Event =
    | Reserve(key: Key)
    | Capacity(key: Key, available: Option<int>)
    | ReleaseReservation(id: nat)
    | Acquire(key: Key)
    | Dismiss(ticket: nat)
    | ReleaseStream(ticket: nat)
    | Close

  /** Each event is one segment between awaits. Malformed and already aborted requests change nothing. `Capacity`
      ends the wait of a pending reservation: with the free bytes, or without when it failed, timed out or was
      aborted. `Dismiss` is a queue timeout or an abort. */
  function Step(s: State, e: Event): State {
    match e
    case Reserve(key) =>
      if s.closed || !MayClaim(s.limits, s.staging, key) then s else s.(staging := Claimed(s.staging, key))
    case Capacity(key, available) =>
      if key !in s.staging.pending then s
      else if available.None? || available.value < 0 || s.closed
              || available.value < s.limits.floor + s.staging.reserved + s.limits.reservation
      then Settled(s.(staging := Unclaimed(s.staging, key)))
      else Settled(s.(staging := Kept(s.limits, s.staging, key, s.next), next := s.next + 1))
    case ReleaseReservation(id) =>
      if id !in s.staging.handles || s.staging.handles[id].released then s
      else
        var t, key := s.(staging := Asked(s.staging, id)), s.staging.handles[id].key;
        if key in s.inFlight then t else Settled(t.(staging := Finalized(t.limits, t.staging, key)))
    case Acquire(key) =>
      if s.closed || key !in s.staging.held || s.staging.held[key].releaseRequested || key in s.inFlight
         || !HasRoom(s.limits, s.lobby, key) then s
      else Drained(s.(lobby := Entered(s.lobby, Waiter(s.next, key)), inFlight := s.inFlight + {key}, next := s.next + 1))
    case Dismiss(ticket) =>
      var i := Position(s.lobby.queue, ticket);
      if i == |s.lobby.queue| then s else Drained(DismissedAt(s, i))
    case ReleaseStream(ticket) =>
      if ticket !in s.streams.permits || s.streams.permits[ticket].released then s
      else Drained(Settled(Landed(s.(streams := Stopped(s.streams, ticket)), s.streams.permits[ticket].key)))
    case Close => if s.closed then s else Settled(AllDismissed(s.(closed := true)))
  }

  // ----- the updates keep the invariant

  lemma LinkStarted(inFlight: set<Key>, q: seq<Waiter>, running: map<Key, nat>, held: map<Key, Record>, i: nat)
    requires LinkOk(inFlight, q, running, held) && Distinct(q) && i < |q|
    ensures LinkOk(inFlight, Without(q, i), running[q[i].key := q[i].ticket], held) && q[i].key !in running
  {
    hide Without, Keys;
    KeysWithout(q, i);
    InKeys(q, i);
    RunningMore(running, q[i].key, q[i].ticket);
    var k := q[i].key;
    assert running.Keys + {k} + (Keys(q) - {k}) == running.Keys + Keys(q);
  }

  lemma NumbersWithout(q: seq<Waiter>, permits: map<nat, Handle>, handles: map<nat, Handle>, next: nat, i: nat)
    requires NumbersOk(q, permits, handles, next) && i < |q|
    ensures NumbersOk(Without(q, i), permits, handles, next)
    ensures NumbersOk(Without(q, i), permits[q[i].ticket := Handle(q[i].key, false)], handles, next)
  {
    assert forall j | 0 <= j < |q| - 1 :: Without(q, i)[j] == q[if j < i then j else j + 1];
    hide Without;
  }

  lemma NewTicket(q: seq<Waiter>, permits: map<nat, Handle>, handles: map<nat, Handle>, next: nat, i: nat)
    requires NumbersOk(q, permits, handles, next) && i < |q|
    ensures q[i].ticket !in permits
  {}

  lemma StartedAtKeeps(s: State, i: nat)
    requires Inv(s) && !s.closed && i < |s.lobby.queue| && MayRun(s.limits, s.streams, s.lobby.queue[i].key)
    ensures Inv(StartedAt(s, i))
  {
    hide StagingOk, HandlesOk, StreamsOk, PermitsOk, Tallies, Keys, LinkOk, Distinct, NumbersOk, Without, MayRun, At, Plus, Minus;
    var q, w := s.lobby.queue, s.lobby.queue[i];
    LinkStarted(s.inFlight, q, s.streams.running, s.staging.held, i);
    NumbersWithout(q, s.streams.permits, s.staging.handles, s.next, i);
    ExitedKeeps(s.limits, s.lobby, i);
    StartedKeeps(s.limits, s.streams, w);
    NewTicket(q, s.streams.permits, s.staging.handles, s.next, i);
    StartedPermits(s.streams, w);
  }

  lemma StartedSame(s: State, i: nat)
    ensures i < |s.lobby.queue| ==>
              var t := StartedAt(s, i);
              && t.limits == s.limits && t.closed == s.closed && t.staging == s.staging && t.closeResolved == s.closeResolved
              && |t.lobby.queue| < |s.lobby.queue|
  {}

  lemma ClosedEmpty(s: State)
    requires Inv(s) && s.closed
    ensures s.lobby.queue == []
  {
    hide StagingOk, HandlesOk, StreamsOk, PermitsOk, LobbyOk, LinkOk, NumbersOk;
  }

  lemma {:induction false} DrainedKeeps(s: State)
    requires Inv(s)
    ensures var t := Drained(s); Inv(t) && t.closed == s.closed && t.staging == s.staging && t.closeResolved == s.closeResolved
    ensures var t := Drained(s);
            t.limits == s.limits && forall i | 0 <= i < |t.lobby.queue| :: !MayRun(t.limits, t.streams, t.lobby.queue[i].key)
    ensures s.closed ==> Drained(s) == s
    decreases |s.lobby.queue|
  {
    hide Inv, MayRun, StartedAt, FirstRunnable;
    var k := FirstRunnable(s, 0);
    StartedSame(s, k);
    if s.closed {
      ClosedEmpty(s);
    } else if k < |s.lobby.queue| {
      StartedAtKeeps(s, k);
      DrainedKeeps(StartedAt(s, k));
    }
  }

  /** What an attempt that is no longer queued or running leaves behind. */
  lemma LinkLanded(inFlight: set<Key>, q: seq<Waiter>, running: map<Key, nat>, held: map<Key, Record>, key: Key)
    requires inFlight == running.Keys + Keys(q) + {key} && running.Keys !! Keys(q) && key !in running && key !in Keys(q)
    requires inFlight <= held.Keys && forall k | k in held && held[k].releaseRequested :: k in inFlight
    ensures var kept := if key in held && held[key].releaseRequested then held - {key} else held;
            LinkOk(inFlight - {key}, q, running, kept)
  {
    hide Keys;
  }

  /** Everything of the invariant but the link between the parts. */
  ghost predicate PartsOk(s: State) {
    && s.limits.Normalized() && StagingOk(s.limits, s.staging) && HandlesOk(s.staging)
    && StreamsOk(s.limits, s.streams) && PermitsOk(s.streams) && LobbyOk(s.limits, s.lobby)
    && NumbersOk(s.lobby.queue, s.streams.permits, s.staging.handles, s.next)
    && (s.closed ==> s.lobby.queue == []) && !s.closeResolved
  }

  lemma LandedKeeps(s: State, key: Key)
    requires PartsOk(s)
    requires s.inFlight == s.streams.running.Keys + Keys(s.lobby.queue) + {key}
    requires s.streams.running.Keys !! Keys(s.lobby.queue) && key !in s.streams.running && key !in Keys(s.lobby.queue)
    requires s.inFlight <= s.staging.held.Keys
    requires forall k | k in s.staging.held && s.staging.held[k].releaseRequested :: k in s.inFlight
    ensures Inv(Landed(s, key))
  {
    hide StagingOk, HandlesOk, StreamsOk, PermitsOk, LobbyOk, Keys, LinkOk, NumbersOk;
    var t := Landed(s, key);
    LinkLanded(s.inFlight, s.lobby.queue, s.streams.running, s.staging.held, key);
    if key in s.staging.held && s.staging.held[key].releaseRequested {
      FinalizedKeeps(s.limits, s.staging, key);
      FinalizedHandles(s.limits, s.staging, key);
    }
  }

  lemma DismissedKeeps(s: State, i: nat)
    requires Inv(s) && i < |s.lobby.queue| && !s.closeResolved
    ensures Inv(DismissedAt(s, i)) && DismissedAt(s, i).lobby == Exited(s.lobby, i)
  {
    hide StagingOk, HandlesOk, StreamsOk, PermitsOk, Tallies, Keys, NumbersOk, Without, Distinct, Landed, At, Minus;
    var t, key := s.(lobby := Exited(s.lobby, i)), s.lobby.queue[i].key;
    ExitedKeeps(s.limits, s.lobby, i);
    KeysWithout(s.lobby.queue, i);
    InKeys(s.lobby.queue, i);
    NumbersWithout(s.lobby.queue, s.streams.permits, s.staging.handles, s.next, i);
    assert s.inFlight == s.streams.running.Keys + Keys(t.lobby.queue) + {key};
    LandedKeeps(t, key);
    LandedSame(t, key);
  }

  lemma LandedSame(s: State, key: Key)
    ensures var t := Landed(s, key);
            && t.lobby == s.lobby && t.closed == s.closed && t.closeResolved == s.closeResolved && t.limits == s.limits
            && t.streams == s.streams
  {}

  lemma StoppedLands(s: State, ticket: nat)
    requires Inv(s) && ticket in s.streams.permits && !s.streams.permits[ticket].released
    ensures var t := s.(streams := Stopped(s.streams, ticket)); Inv(Landed(t, s.streams.permits[ticket].key))
  {
    hide StagingOk, HandlesOk, Tallies, Keys, LobbyOk, NumbersOk, Landed, At, Minus;
    var t, key := s.(streams := Stopped(s.streams, ticket)), s.streams.permits[ticket].key;
    assert key in s.streams.running;
    assert !s.closeResolved by { StillRunning(s, key); }
    StoppedKeeps(s.limits, s.streams, ticket);
    StoppedPermits(s.streams, ticket);
    hide PermitsOk, StreamsOk;
    RunningMore(s.streams.running, key, ticket);
    StoppedNumbers(s, ticket);
    assert s.inFlight == t.streams.running.Keys + Keys(t.lobby.queue) + {key};
    LandedKeeps(t, key);
  }

  lemma StillRunning(s: State, key: Key)
    requires StreamsOk(s.limits, s.streams) && key in s.streams.running
    ensures !Empty(s)
  {
    assert |s.streams.running| > 0;
  }

  lemma StoppedNumbers(s: State, ticket: nat)
    requires NumbersOk(s.lobby.queue, s.streams.permits, s.staging.handles, s.next) && ticket in s.streams.permits
    ensures NumbersOk(s.lobby.queue, Stopped(s.streams, ticket).permits, s.staging.handles, s.next)
  {
    hide Minus;
  }

  // ----- every event keeps the invariant

  lemma ReserveKeeps(s: State, key: Key)
    requires Inv(s) && !s.closed && MayClaim(s.limits, s.staging, key)
    ensures Inv(s.(staging := Claimed(s.staging, key)))
  {
    hide StagingOk, StreamsOk, PermitsOk, LobbyOk, LinkOk, NumbersOk, MayClaim, Plus;
    ClaimedKeeps(s.limits, s.staging, key);
  }

  lemma CapacityKeeps(s: State, key: Key, available: Option<int>)
    requires Inv(s) && key in s.staging.pending
    ensures Inv(Step(s, Capacity(key, available)))
  {
    hide StagingOk, HandlesOk, StreamsOk, PermitsOk, LobbyOk, LinkOk, Minus;
    UnclaimedKeeps(s.limits, s.staging, key);
    UnclaimedHandles(s.staging, key);
    PendingFree(s, key);
    KeptKeeps(s.limits, s.staging, key, s.next);
    KeptHandles(s.limits, s.staging, key, s.next);
    KeptLink(s.inFlight, s.lobby.queue, s.streams.running, s.staging.held, key, s.next);
  }

  lemma UnclaimedHandles(s: Staging, key: Key)
    requires HandlesOk(s)
    ensures HandlesOk(Unclaimed(s, key))
  {}

  lemma PendingFree(s: State, key: Key)
    requires Inv(s) && key in s.staging.pending
    ensures key !in s.staging.held && s.next !in s.staging.handles && !s.closeResolved
  {
    hide HandlesOk, StreamsOk, PermitsOk, LobbyOk, LinkOk, ClaimsOk;
  }

  lemma KeptLink(inFlight: set<Key>, q: seq<Waiter>, running: map<Key, nat>, held: map<Key, Record>, key: Key, id: nat)
    requires LinkOk(inFlight, q, running, held) && key !in held
    ensures LinkOk(inFlight, q, running, held[key := Record(id, false)])
  {
    hide Keys;
  }

  lemma ReleaseKeeps(s: State, id: nat)
    requires Inv(s) && id in s.staging.handles && !s.staging.handles[id].released
    ensures Inv(Step(s, ReleaseReservation(id)))
  {
    hide StagingOk, HandlesOk, StreamsOk, PermitsOk, LobbyOk, LinkOk, NumbersOk, Bytes, Minus, Asked;
    var key, t := s.staging.handles[id].key, Asked(s.staging, id);
    AskedKeeps(s.limits, s.staging, id);
    AskedHandles(s.staging, id);
    AskedNumbers(s, id);
    AskedLink(s.inFlight, s.lobby.queue, s.streams.running, s.staging.held, key, id);
    assert !Empty(s);
    if key !in s.inFlight {
      FinalizedKeeps(s.limits, t, key);
      FinalizedHandles(s.limits, t, key);
    }
  }

  lemma AskedNumbers(s: State, id: nat)
    requires NumbersOk(s.lobby.queue, s.streams.permits, s.staging.handles, s.next) && id in s.staging.handles
    ensures NumbersOk(s.lobby.queue, s.streams.permits, Asked(s.staging, id).handles, s.next)
  {}

  lemma AskedLink(inFlight: set<Key>, q: seq<Waiter>, running: map<Key, nat>, held: map<Key, Record>, key: Key, id: nat)
    requires LinkOk(inFlight, q, running, held) && key in held
    ensures var asked := held[key := Record(id, true)];
            if key in inFlight then LinkOk(inFlight, q, running, asked) else LinkOk(inFlight, q, running, asked - {key})
  {
    hide Keys;
  }

  lemma EnteredLink(s: State, key: Key)
    requires Inv(s) && key !in s.inFlight && key in s.staging.held && !s.closed && HasRoom(s.limits, s.lobby, key)
    ensures Inv(s.(lobby := Entered(s.lobby, Waiter(s.next, key)), inFlight := s.inFlight + {key}, next := s.next + 1))
  {
    hide StagingOk, HandlesOk, StreamsOk, PermitsOk, Keys, HasRoom, Tallies, At, Plus, Distinct;
    var w := Waiter(s.next, key);
    KeysPlus(s.lobby.queue, w);
    EnteredKeeps(s.limits, s.lobby, w);
  }

  lemma {:induction false} AllDismissedKeeps(s: State)
    requires Inv(s.(closed := false)) && !s.closeResolved && !s.(closed := false).closeResolved
    ensures var t := AllDismissed(s);
            && Inv(t.(closed := false)) && t.lobby.queue == [] && t.closed == s.closed && t.closeResolved == s.closeResolved
            && t.limits == s.limits
    decreases |s.lobby.queue|
  {
    hide Inv, DismissedAt;
    if s.lobby.queue != [] {
      var open := s.(closed := false);
      DismissedKeeps(open, 0);
      ClosedApart(s);
      AllDismissedKeeps(DismissedAt(s, 0));
    }
  }

  lemma ClosedApart(s: State)
    requires s.lobby.queue != []
    ensures var t, u := DismissedAt(s, 0), DismissedAt(s.(closed := false), 0);
            && t.(closed := false) == u && t.closed == s.closed && t.closeResolved == s.closeResolved && t.limits == s.limits
            && |t.lobby.queue| < |s.lobby.queue|
  {
    hide Finalized, Minus;
  }

  lemma CloseKeeps(s: State)
    requires Inv(s) && !s.closed
    ensures var t := Step(s, Close); Inv(t) && t.closed && t.lobby.queue == [] && (Empty(t) ==> t.closeResolved)
  {
    hide StagingOk, HandlesOk, StreamsOk, PermitsOk, LobbyOk, LinkOk, NumbersOk, AllDismissed;
    AllDismissedKeeps(s.(closed := true)) by { assert s.(closed := true).(closed := false) == s; }
  }

  /** Main step: every segment keeps the invariant and leaves nothing undone. */
  lemma StepKeeps(s: State, e: Event)
    requires Inv(s) && Quiet(s)
    ensures Inv(Step(s, e)) && Quiet(Step(s, e))
  {
    hide Inv, MayRun, Drained, MayClaim, HasRoom;
    match e
    case Reserve(key) =>
      if !s.closed && MayClaim(s.limits, s.staging, key) { ReserveKeeps(s, key); }
    case Capacity(key, available) =>
      if key in s.staging.pending { CapacityKeeps(s, key, available); }
    case ReleaseReservation(id) =>
      if id in s.staging.handles && !s.staging.handles[id].released { ReleaseKeeps(s, id); }
    case Acquire(key) => AcquireQuiet(s, key);
    case Dismiss(ticket) => DismissQuiet(s, ticket);
    case ReleaseStream(ticket) => StreamQuiet(s, ticket);
    case Close =>
      if !s.closed { CloseKeeps(s); }
  }

  lemma AcquireQuiet(s: State, key: Key)
    requires Inv(s) && Quiet(s)
    ensures var t := Step(s, Acquire(key)); Inv(t) && Quiet(t)
  {
    hide Inv, MayRun, Drained, HasRoom;
    if !s.closed && key in s.staging.held && key !in s.inFlight && HasRoom(s.limits, s.lobby, key) {
      EnteredLink(s, key);
      DrainedKeeps(s.(lobby := Entered(s.lobby, Waiter(s.next, key)), inFlight := s.inFlight + {key}, next := s.next + 1));
    }
  }

  lemma DismissQuiet(s: State, ticket: nat)
    requires Inv(s) && Quiet(s)
    ensures var t := Step(s, Dismiss(ticket)); Inv(t) && Quiet(t)
  {
    hide Inv, MayRun, Drained, DismissedAt, Empty;
    var i := Position(s.lobby.queue, ticket);
    if i < |s.lobby.queue| {
      StillOpen(s);
      DismissedKeeps(s, i);
      DismissedSame(s, i);
      DrainedKeeps(DismissedAt(s, i));
    }
  }

  lemma StillOpen(s: State)
    requires Inv(s) && s.lobby.queue != []
    ensures !s.closed && !s.closeResolved
  {
    hide StagingOk, HandlesOk, StreamsOk, PermitsOk, LobbyOk, LinkOk, NumbersOk;
  }

  lemma DismissedSame(s: State, i: nat)
    requires i < |s.lobby.queue|
    ensures DismissedAt(s, i).closed == s.closed && DismissedAt(s, i).closeResolved == s.closeResolved
  {}

  lemma StreamQuiet(s: State, ticket: nat)
    requires Inv(s) && Quiet(s)
    ensures var t := Step(s, ReleaseStream(ticket)); Inv(t) && Quiet(t)
  {
    hide Inv, MayRun, Drained, Landed, Stopped;
    if ticket in s.streams.permits && !s.streams.permits[ticket].released {
      var t, key := s.(streams := Stopped(s.streams, ticket)), s.streams.permits[ticket].key;
      StoppedLands(s, ticket);
      LandedSame(t, key);
      var u := Settled(Landed(t, key));
      SettledInv(Landed(t, key));
      DrainedKeeps(u);
    }
  }

  function Initial(limits: Limits): State {
    State(limits, Staging({}, map[], {}, map[], 0, map[]), Streams(0, map[], map[], map[]), Lobby([], map[]), {}, false, false, 0)
  }

  /** Any interleaving of segments. */
  function Run(limits: Limits, events: seq<Event>): State {
    if events == [] then Initial(limits) else Step(Run(limits, events[..|events| - 1]), events[|events| - 1])
  }

  lemma InitialParts(limits: Limits)
    requires limits.Normalized()
    ensures var s := Initial(limits); StagingOk(limits, s.staging) && StreamsOk(limits, s.streams) && LobbyOk(limits, s.lobby)
  {
    var s := Initial(limits);
    forall p: Project ensures Of({}, p) == {} {}
    assert Keys(s.lobby.queue) == {} && s.streams.running.Keys == {} && s.staging.held.Keys == {};
  }

  lemma InitialInv(limits: Limits)
    requires limits.Normalized()
    ensures Inv(Initial(limits)) && Quiet(Initial(limits))
  {
    hide StagingOk, StreamsOk, LobbyOk;
    InitialParts(limits);
    assert Keys([]) == {};
  }

  lemma LimitsKept(s: State, e: Event)
    requires Inv(s)
    ensures Step(s, e).limits == s.limits
  {
    hide Inv, Drained, MayRun;
    match e
    case Acquire(key) => LimitsDrained(s.(lobby := Entered(s.lobby, Waiter(s.next, key)), inFlight := s.inFlight + {key}, next := s.next + 1));
    case Dismiss(ticket) =>
      if Position(s.lobby.queue, ticket) < |s.lobby.queue| { LimitsDrained(DismissedAt(s, Position(s.lobby.queue, ticket))); }
    case ReleaseStream(ticket) =>
      if ticket in s.streams.permits {
        LimitsDrained(Settled(Landed(s.(streams := Stopped(s.streams, ticket)), s.streams.permits[ticket].key)));
      }
    case Close => LimitsDismissed(s.(closed := true));
    case _ =>
  }

  lemma {:induction false} LimitsDrained(s: State)
    ensures Drained(s).limits == s.limits
    decreases |s.lobby.queue|
  {
    hide MayRun, StartedAt, FirstRunnable;
    var k := FirstRunnable(s, 0);
    StartedSame(s, k);
    if !s.closed && k < |s.lobby.queue| {
      LimitsDrained(StartedAt(s, k));
    }
  }

  lemma {:induction false} LimitsDismissed(s: State)
    ensures AllDismissed(s).limits == s.limits
    decreases |s.lobby.queue|
  {
    if s.lobby.queue != [] {
      LimitsDismissed(DismissedAt(s, 0));
    }
  }

  /** Main result: the invariant in every reachable state. */
  lemma {:induction false} AlwaysInv(limits: Limits, events: seq<Event>)
    requires limits.Normalized()
    ensures Inv(Run(limits, events)) && Quiet(Run(limits, events)) && Run(limits, events).limits == limits
    decreases |events|
  {
    hide Inv, Quiet, Step, Limits.Normalized;
    if events == [] {
      InitialInv(limits);
    } else {
      AlwaysInv(limits, events[..|events| - 1]);
      StepKeeps(Run(limits, events[..|events| - 1]), events[|events| - 1]);
      LimitsKept(Run(limits, events[..|events| - 1]), events[|events| - 1]);
    }
  }

  // ----- what callers rely on

  /** In every reachable state bytes are conserved, claims are exactly the held and the pending reservations and
      within both caps, whatever is queued or running still holds its reservation, streams are within both caps,
      and closing has resolved exactly when it was asked for and everything has drained. */
  lemma Conservation(limits: Limits, events: seq<Event>)
    requires limits.Normalized()
    ensures var s := Run(limits, events);
            && s.staging.reserved == limits.reservation * |s.staging.held|
            && s.staging.claims == s.staging.pending + s.staging.held.Keys && s.staging.pending !! s.staging.held.Keys
            && |s.staging.claims| <= limits.maxAttempts
            && (forall p :: |Of(s.staging.claims, p)| <= limits.maxAttemptsPerProject)
            && s.streams.running.Keys + Keys(s.lobby.queue) <= s.staging.held.Keys
            && s.streams.active == |s.streams.running| <= limits.maxStreams
            && (forall p :: |Of(s.streams.running.Keys, p)| <= limits.maxStreamsPerProject)
            && (s.closeResolved <==> s.closed && Empty(s))
  {
    hide Run, HandlesOk, PermitsOk, NumbersOk, LobbyOk, Of, Keys, MayRun, Empty, Tallies;
    AlwaysInv(limits, events);
    var s := Run(limits, events);
    CountsBounded(s.staging.claimCount, s.staging.claims, limits.maxAttemptsPerProject);
    CountsBounded(s.streams.activeCount, s.streams.running.Keys, limits.maxStreamsPerProject);
  }

  lemma CountsBounded(m: map<Project, int>, s: set<Key>, bound: int)
    requires Tallies(m, s) && forall p :: At(m, p) <= bound
    ensures forall p :: |Of(s, p)| <= bound
  {
    forall p ensures |Of(s, p)| <= bound {
      assert At(m, p) == |Of(s, p)|;
    }
  }

  /** A reservation is granted only with room for the floor and every reservation held, itself included. */
  lemma SpaceChecked(s: State, key: Key, available: Option<int>)
    requires Inv(s) && key in s.staging.pending
    ensures var t := Step(s, Capacity(key, available));
            && t.staging.claims == (if key in t.staging.held then s.staging.claims else s.staging.claims - {key})
            && (key in t.staging.held <==>
                  !s.closed && available.Some? && available.value >= 0
                  && available.value >= s.limits.floor + s.limits.reservation * (|s.staging.held| + 1))
  {
    hide HandlesOk, StreamsOk, PermitsOk, LobbyOk, LinkOk, NumbersOk, ClaimsOk, Minus;
    BytesMore(s.limits, |s.staging.held|);
  }

  /** Asking for a release while a stream of the attempt is queued or running changes no reservation; it is given
      up when that stream ends. */
  lemma ReleaseDeferred(s: State, id: nat)
    requires Inv(s) && id in s.staging.handles && !s.staging.handles[id].released
    ensures var key := s.staging.handles[id].key; var t := Step(s, ReleaseReservation(id));
            && (key in s.inFlight ==> t.staging.held.Keys == s.staging.held.Keys && t.staging.reserved == s.staging.reserved)
            && (key !in s.inFlight ==> t.staging.held.Keys == s.staging.held.Keys - {key}
                                       && t.staging.reserved == s.staging.reserved - s.limits.reservation)
  {
    hide StreamsOk, PermitsOk, LobbyOk, LinkOk, NumbersOk, ClaimsOk, Minus;
  }

  lemma StreamEndGivesUp(s: State, ticket: nat)
    requires Inv(s) && ticket in s.streams.permits && !s.streams.permits[ticket].released
    requires s.staging.held[s.streams.permits[ticket].key].releaseRequested
    ensures Step(s, ReleaseStream(ticket)).staging.held == s.staging.held - {s.streams.permits[ticket].key}
  {
    hide StagingOk, HandlesOk, StreamsOk, LobbyOk, NumbersOk, Drained, Keys, Stopped, MayRun;
    var t, key := s.(streams := Stopped(s.streams, ticket)), s.streams.permits[ticket].key;
    StoppedLands(s, ticket);
    hide LinkOk, PermitsOk;
    DrainedKeeps(Settled(Landed(t, key)));
  }

  /** Once closed, no reservation and no stream is ever granted. */
  lemma NothingAfterClose(s: State, e: Event)
    requires Inv(s) && s.closed
    ensures var t := Step(s, e);
            t.closed && t.staging.held.Keys <= s.staging.held.Keys && t.streams.running.Keys <= s.streams.running.Keys
  {
    hide StagingOk, StreamsOk, PermitsOk, LobbyOk, LinkOk, NumbersOk, Minus, MayRun;
    hide HandlesOk;
    if e.ReleaseReservation? && e.id in s.staging.handles && !s.staging.handles[e.id].released {
      HandleHeld(s, e.id);
    }
  }

  // ----- who is taken, who runs, who waits

  /** Room for one more stream of this attempt's project, counted on the running streams alone. */
  ghost predicate StreamRoom(limits: Limits, running: map<Key, nat>, key: Key) {
    |running| < limits.maxStreams && |Of(running.Keys, key.project)| < limits.maxStreamsPerProject
  }

  ghost predicate QueueRoom(limits: Limits, queue: seq<Waiter>, key: Key) {
    |queue| < limits.queueMax && |Of(Keys(queue), key.project)| < limits.queueMaxPerProject
  }

  lemma RunMeansRoom(limits: Limits, s: Streams, key: Key)
    requires StreamsOk(limits, s)
    ensures MayRun(limits, s, key) <==> StreamRoom(limits, s.running, key)
  {
    hide Of;
    TallyAt(s.activeCount, s.running.Keys, key.project);
  }

  lemma TallyAt(m: map<Project, int>, s: set<Key>, p: Project)
    requires Tallies(m, s)
    ensures At(m, p) == |Of(s, p)|
  {
    hide Of, At;
  }

  lemma QueueMeansRoom(limits: Limits, s: Lobby, key: Key)
    requires LobbyOk(limits, s)
    ensures HasRoom(limits, s, key) <==> QueueRoom(limits, s.queue, key)
  {
    hide Of, Keys, Distinct;
    TallyAt(s.queuedCount, Keys(s.queue), key.project);
    hide Tallies;
  }

  /** A reservation is claimed exactly when the admission is open, the attempt has no claim yet and both caps leave
      room; otherwise nothing changes. */
  lemma ReserveDecided(limits: Limits, events: seq<Event>, key: Key)
    requires limits.Normalized()
    ensures var s := Run(limits, events); var t := Step(s, Reserve(key));
            if !s.closed && key !in s.staging.claims && |s.staging.claims| < limits.maxAttempts
               && |Of(s.staging.claims, key.project)| < limits.maxAttemptsPerProject
            then t.staging.pending == s.staging.pending + {key} && t.staging.claims == s.staging.claims + {key}
                 && t.staging.held == s.staging.held
            else t == s
  {
    hide Run, HandlesOk, StreamsOk, PermitsOk, LobbyOk, LinkOk, NumbersOk, Of;
    AlwaysInv(limits, events);
    var s := Run(limits, events);
    TallyAt(s.staging.claimCount, s.staging.claims, key.project);
    hide Tallies;
  }

  /** A stream request is taken exactly when the admission is open, its reservation held with no release asked, the
      attempt neither queued nor running, and the queue bounds leave room. Then it runs at once when there is room
      for a stream, and is last in the queue otherwise. A request not taken changes nothing. */
  lemma AcquireDecided(limits: Limits, events: seq<Event>, key: Key)
    requires limits.Normalized()
    ensures var s := Run(limits, events); var t := Step(s, Acquire(key));
            var taken := !s.closed && key in s.staging.held && !s.staging.held[key].releaseRequested
                         && key !in s.streams.running && key !in Keys(s.lobby.queue) && QueueRoom(limits, s.lobby.queue, key);
            if !taken then t == s
            else && t.staging == s.staging && t.next == s.next + 1
                 && if StreamRoom(limits, s.streams.running, key)
                    then t.streams.running == s.streams.running[key := s.next] && t.lobby.queue == s.lobby.queue
                    else t.streams == s.streams && t.lobby.queue == s.lobby.queue + [Waiter(s.next, key)]
  {
    hide Run, StagingOk, HandlesOk, PermitsOk, NumbersOk, Of, Keys, MayRun, HasRoom, StreamRoom, QueueRoom, StreamsOk, LobbyOk;
    AlwaysInv(limits, events);
    var s := Run(limits, events);
    RunMeansRoom(limits, s.streams, key);
    QueueMeansRoom(limits, s.lobby, key);
    if !s.closed && key in s.staging.held && !s.staging.held[key].releaseRequested && key !in s.inFlight && HasRoom(limits, s.lobby, key) {
      LastArrives(s, Waiter(s.next, key));
    }
  }

  /** Where nobody could run before, the one who arrives last runs alone, or nobody does. */
  lemma LastArrives(s: State, w: Waiter)
    requires Quiet(s) && !s.closed && w.key !in s.streams.running
    ensures var u := s.(lobby := Entered(s.lobby, w), inFlight := s.inFlight + {w.key}, next := s.next + 1);
            var t := Drained(u);
            && t.staging == s.staging && t.next == s.next + 1
            && if MayRun(s.limits, s.streams, w.key)
               then t.streams.running == s.streams.running[w.key := w.ticket] && t.lobby.queue == s.lobby.queue
               else t.streams == s.streams && t.lobby.queue == s.lobby.queue + [w]
  {
    hide MayRun;
    var u := s.(lobby := Entered(s.lobby, w), inFlight := s.inFlight + {w.key}, next := s.next + 1);
    var n := |s.lobby.queue|;
    assert u.lobby.queue[n] == w && forall i | 0 <= i < n :: u.lobby.queue[i] == s.lobby.queue[i];
    if MayRun(s.limits, s.streams, w.key) {
      assert FirstRunnable(u, 0) == n;
      var v := StartedAt(u, n);
      assert v.lobby.queue == s.lobby.queue;
      forall i | 0 <= i < n ensures !MayRun(v.limits, v.streams, v.lobby.queue[i].key) {
        Harder(s.limits, s.streams, w, s.lobby.queue[i].key);
      }
      assert Drained(v) == v;
    } else {
      assert FirstRunnable(u, 0) == n + 1;
    }
  }

  lemma Harder(limits: Limits, s: Streams, w: Waiter, key: Key)
    requires !MayRun(limits, s, key)
    ensures !MayRun(limits, Started(s, w), key)
  {}

  /** In every run, nobody waits for whom there is room. */
  lemma WaitersHaveNoRoom(limits: Limits, events: seq<Event>, i: nat)
    requires limits.Normalized() && i < |Run(limits, events).lobby.queue|
    ensures var s := Run(limits, events); !StreamRoom(limits, s.streams.running, s.lobby.queue[i].key)
  {
    hide Run, StagingOk, HandlesOk, PermitsOk, NumbersOk, LinkOk, LobbyOk, MayRun, StreamRoom, StreamsOk;
    AlwaysInv(limits, events);
    RunMeansRoom(limits, Run(limits, events).streams, Run(limits, events).lobby.queue[i].key);
  }

  /** Streams go on running, and whoever leaves the queue has its stream. */
  ghost predicate Starts(s: State, t: State) {
    && (forall k | k in s.streams.running :: k in t.streams.running && t.streams.running[k] == s.streams.running[k])
    && (forall w | w in s.lobby.queue ::
          w in t.lobby.queue || (w.key in t.streams.running && t.streams.running[w.key] == w.ticket))
    && (forall w | w in t.lobby.queue :: w in s.lobby.queue)
    && (forall k | k in t.streams.running :: k in s.streams.running || k in Keys(s.lobby.queue))
    && t.staging == s.staging && t.inFlight == s.inFlight
  }

  lemma StartsOn(s: State, t: State, u: State)
    requires Starts(s, t) && Starts(t, u)
    ensures Starts(s, u)
  {
    forall k | k in u.streams.running ensures k in s.streams.running || k in Keys(s.lobby.queue) {
      if k !in t.streams.running {
        var w :| w in t.lobby.queue && w.key == k;
        assert w in s.lobby.queue;
      }
    }
    hide Keys;
  }

  lemma OneStarts(s: State, i: nat)
    requires Inv(s) && i < |s.lobby.queue|
    ensures Starts(s, StartedAt(s, i))
  {
    hide StagingOk, HandlesOk, StreamsOk, PermitsOk, NumbersOk, Keys, Tallies, At, Plus, Minus;
    var q, w := s.lobby.queue, s.lobby.queue[i];
    LinkStarted(s.inFlight, q, s.streams.running, s.staging.held, i);
    InKeys(q, i);
    forall x | x in q && x != w ensures x in Without(q, i) {
      KeptWithout(q, i, x);
    }
    WithoutAt(q, i);
    hide Without, LinkOk, Distinct;
  }

  lemma KeptWithout(q: seq<Waiter>, i: nat, x: Waiter)
    requires i < |q| && x in q && x != q[i]
    ensures x in Without(q, i)
  {
    var j :| 0 <= j < |q| && q[j] == x;
    assert Without(q, i)[if j < i then j else j - 1] == x;
  }

  lemma {:induction false} DrainedStarts(s: State)
    requires Inv(s)
    ensures Starts(s, Drained(s))
    decreases |s.lobby.queue|
  {
    hide Inv, MayRun, StartedAt, FirstRunnable, Starts;
    var k := FirstRunnable(s, 0);
    StartedSame(s, k);
    if s.closed || k == |s.lobby.queue| {
      SameStarts(s);
    } else {
      StartedAtKeeps(s, k);
      OneStarts(s, k);
      DrainedStarts(StartedAt(s, k));
      StartsOn(s, StartedAt(s, k), Drained(s));
    }
  }

  lemma SameStarts(s: State)
    ensures Starts(s, s)
  {
    hide Keys;
    forall k | k in s.streams.running ensures k in s.streams.running || k in Keys(s.lobby.queue) {}
  }

  /** The first release of a stream frees exactly its slot: it no longer runs nor is in flight, every other stream
      goes on, and whoever leaves the queue has its stream. Without a release asked for, every reservation stays.
      Any other release changes nothing. */
  lemma StreamFrees(limits: Limits, events: seq<Event>, ticket: nat)
    requires limits.Normalized()
    ensures var s := Run(limits, events); var t := Step(s, ReleaseStream(ticket));
            if ticket in s.streams.permits && !s.streams.permits[ticket].released
            then
              var key := s.streams.permits[ticket].key;
              && key in s.streams.running && key !in t.streams.running && key !in t.inFlight
              && (forall k | k in s.streams.running && k != key ::
                    k in t.streams.running && t.streams.running[k] == s.streams.running[k])
              && (forall w | w in s.lobby.queue ::
                    w in t.lobby.queue || (w.key in t.streams.running && t.streams.running[w.key] == w.ticket))
              && (key in s.staging.held && !s.staging.held[key].releaseRequested ==> t.staging == s.staging)
            else t == s
  {
    hide Run, Drained, Keys, MayRun;
    AlwaysInv(limits, events);
    var s := Run(limits, events);
    if ticket in s.streams.permits && !s.streams.permits[ticket].released {
      StreamFreed(s, ticket);
    }
    hide Inv, Quiet, Step;
  }

  lemma StreamFreed(s: State, ticket: nat)
    requires Inv(s) && ticket in s.streams.permits && !s.streams.permits[ticket].released
    ensures var t, key := Step(s, ReleaseStream(ticket)), s.streams.permits[ticket].key;
            && key in s.streams.running && key !in t.streams.running && key !in t.inFlight
            && (forall k | k in s.streams.running && k != key ::
                  k in t.streams.running && t.streams.running[k] == s.streams.running[k])
            && (forall w | w in s.lobby.queue ::
                  w in t.lobby.queue || (w.key in t.streams.running && t.streams.running[w.key] == w.ticket))
            && (key in s.staging.held && !s.staging.held[key].releaseRequested ==> t.staging == s.staging)
  {
    hide StagingOk, HandlesOk, StreamsOk, LobbyOk, NumbersOk, Drained, Keys, MayRun, Minus, Finalized;
    var key := s.streams.permits[ticket].key;
    assert key in s.streams.running;
    var u := Landed(s.(streams := Stopped(s.streams, ticket)), key);
    StoppedLands(s, ticket);
    LandedSame(s.(streams := Stopped(s.streams, ticket)), key);
    SettledInv(u);
    DrainedStarts(Settled(u));
    assert key !in Keys(s.lobby.queue);
    assert u.inFlight == s.inFlight - {key};
    hide Inv, LinkOk, PermitsOk;
  }

  /** A timeout or an abort takes its waiter out, which is then neither queued, running nor in flight; its reservation
      is given up exactly when that was asked for. Nobody else leaves the queue without its stream. */
  lemma DismissTakesOut(limits: Limits, events: seq<Event>, i: nat)
    requires limits.Normalized() && i < |Run(limits, events).lobby.queue|
    ensures var s := Run(limits, events); var w := s.lobby.queue[i]; var t := Step(s, Dismiss(w.ticket));
            && w !in t.lobby.queue && w.key !in t.streams.running && w.key !in t.inFlight
            && w.key in s.staging.held
            && t.staging.held == (if s.staging.held[w.key].releaseRequested then s.staging.held - {w.key} else s.staging.held)
            && (forall k | k in s.streams.running :: k in t.streams.running && t.streams.running[k] == s.streams.running[k])
            && (forall x | x in s.lobby.queue && x != w ::
                  x in t.lobby.queue || (x.key in t.streams.running && t.streams.running[x.key] == x.ticket))
  {
    hide Run, Inv, Quiet, Step;
    AlwaysInv(limits, events);
    Dismissal(Run(limits, events), i);
  }

  lemma Dismissal(s: State, i: nat)
    requires Inv(s) && i < |s.lobby.queue|
    ensures var w := s.lobby.queue[i]; var t := Step(s, Dismiss(w.ticket));
            && w !in t.lobby.queue && w.key !in t.streams.running && w.key !in t.inFlight
            && w.key in s.staging.held
            && t.staging.held == (if s.staging.held[w.key].releaseRequested then s.staging.held - {w.key} else s.staging.held)
            && (forall k | k in s.streams.running :: k in t.streams.running && t.streams.running[k] == s.streams.running[k])
            && (forall x | x in s.lobby.queue && x != w ::
                  x in t.lobby.queue || (x.key in t.streams.running && t.streams.running[x.key] == x.ticket))
  {
    hide StagingOk, HandlesOk, StreamsOk, PermitsOk, Drained, Keys, MayRun, Minus, Tallies, At, DismissedAt;
    var w, q := s.lobby.queue[i], s.lobby.queue;
    AtOwnPlace(q, s.streams.permits, s.staging.handles, s.next, i);
    StillOpen(s);
    var d := DismissedAt(s, i);
    DismissedKeeps(s, i);
    DismissedParts(s, i);
    DrainedStarts(d);
    InKeys(q, i);
    KeysWithout(q, i);
    assert w.key !in Keys(d.lobby.queue) && w.key !in s.streams.running && w.key in s.staging.held;
    NotInKeys(Drained(d).lobby.queue, d.lobby.queue, w);
    forall x | x in q && x != w ensures x in d.lobby.queue {
      KeptWithout(q, i, x);
    }
    hide Inv, LinkOk, LobbyOk, NumbersOk, Distinct, Without;
  }

  lemma NotInKeys(late: seq<Waiter>, early: seq<Waiter>, w: Waiter)
    requires w.key !in Keys(early) && forall x | x in late :: x in early
    ensures w !in late
  {}

  lemma DismissedParts(s: State, i: nat)
    requires i < |s.lobby.queue|
    ensures var d, key := DismissedAt(s, i), s.lobby.queue[i].key;
            && d.streams == s.streams && d.lobby == Exited(s.lobby, i) && d.inFlight == s.inFlight - {key}
            && d.staging.held == (if key in s.staging.held && s.staging.held[key].releaseRequested then s.staging.held - {key} else s.staging.held)
  {
    hide Minus;
  }

  lemma AtOwnPlace(q: seq<Waiter>, permits: map<nat, Handle>, handles: map<nat, Handle>, next: nat, i: nat)
    requires NumbersOk(q, permits, handles, next) && i < |q|
    ensures Position(q, q[i].ticket) == i
  {
    var j := Position(q, q[i].ticket);
    assert q[i] in q;
  }

  /** Closing empties the queue, stops no stream and grants nothing. */
  lemma CloseEmpties(limits: Limits, events: seq<Event>)
    requires limits.Normalized()
    ensures var s := Run(limits, events); var t := Step(s, Close);
            && t.closed && t.lobby.queue == [] && t.streams == s.streams && t.staging.pending == s.staging.pending
            && forall k | k in s.staging.held :: k in t.staging.held || (s.staging.held[k].releaseRequested && k in Keys(s.lobby.queue))
  {
    hide Run, Inv, Quiet, AllDismissed;
    AlwaysInv(limits, events);
    var s := Run(limits, events);
    if s.closed {
      ClosedEmpty(s);
    } else {
      CloseKeeps(s);
      DismissedLeave(s.(closed := true));
    }
  }

  lemma {:induction false} DismissedLeave(s: State)
    ensures var t := AllDismissed(s);
            && t.streams == s.streams && t.staging.pending == s.staging.pending
            && forall k | k in s.staging.held :: k in t.staging.held || (s.staging.held[k].releaseRequested && k in Keys(s.lobby.queue))
    decreases |s.lobby.queue|
  {
    hide Minus;
    if s.lobby.queue != [] {
      var d := DismissedAt(s, 0);
      DismissedLeave(d);
      InKeys(s.lobby.queue, 0);
      assert forall x | x in d.lobby.queue :: x in s.lobby.queue;
    }
  }

  // ----- the class as the source writes it

  class CheckpointStreamAdmission {
    const limits: Limits
    var claims: set<Key>
    var claimCount: map<Project, int>
    var pending: set<Key>
    var held: map<Key, Record>
    var reservedBytes: int
    var handles: map<nat, Handle>
    var active: int
    var activeByProject: map<Project, int>
    var running: map<Key, nat>
    var permits: map<nat, Handle>
    var queue: seq<Waiter>
    var queuedByProject: map<Project, int>
    var attemptsInFlight: set<Key>
    var closed: bool
    var closeResolved: bool
    var next: nat

    function Now(): State
      reads this
    {
      State(limits, Staging(claims, claimCount, pending, held, reservedBytes, handles),
            Streams(active, activeByProject, running, permits), Lobby(queue, queuedByProject), attemptsInFlight,
            closed, closeResolved, next)
    }

    ghost predicate Valid()
      reads this
    {
      Inv(Now()) && Quiet(Now())
    }

    constructor (limits: Limits)
      requires limits.Normalized()
      ensures Valid() && Now() == Initial(limits)
    {
      hide Inv, Quiet;
      this.limits := limits;
      claims, claimCount, pending, held, reservedBytes, handles := {}, map[], {}, map[], 0, map[];
      active, activeByProject, running, permits, queue, queuedByProject := 0, map[], map[], map[], [], map[];
      attemptsInFlight, closed, closeResolved, next := {}, false, false, 0;
      new;
      assert Now() == Initial(limits);
      InitialInv(limits);
    }

    /** `reserveAttempt` up to its await: the claim. */
    method ReserveAttempt(key: Key) returns (waiting: bool)
      requires Valid()
      modifies this`claims, this`claimCount, this`pending
      ensures Valid() && Now() == Step(old(Now()), Reserve(key)) && (waiting <==> key in pending && key !in old(pending))
    {
      hide Inv, Quiet;
      StepKeeps(Now(), Reserve(key));
      PendingClaimed(Now(), key);
      if closed || key in claims || |claims| >= limits.maxAttempts || At(claimCount, key.project) >= limits.maxAttemptsPerProject {
        return false;
      }
      claims := claims + {key};
      claimCount := Plus(claimCount, key.project);
      pending := pending + {key};
      waiting := true;
    }

    /** The segment after the await: keep the reservation or give the claim back, then see whether to close. */
    method FinishReserve(key: Key, available: Option<int>) returns (id: Option<nat>)
      requires Valid() && key in pending
      modifies this`claims, this`claimCount, this`pending, this`held, this`reservedBytes, this`handles, this`next, this`closeResolved
      ensures Valid() && Now() == Step(old(Now()), Capacity(key, available))
      ensures id == if key in held then Some(old(next)) else None
    {
      hide Inv, Quiet, Unclaimed, Kept, Settled;
      StepKeeps(Now(), Capacity(key, available));
      PendingFree(Now(), key);
      KeptOnly(Now(), key);
      if available.None? || available.value < 0 || closed || available.value < limits.floor + reservedBytes + limits.reservation {
        id := None;
        GiveBack(key);
      } else {
        id := Some(next);
        Keep(key);
      }
      SettleClose();
    }

    method GiveBack(key: Key)
      modifies this`claims, this`claimCount, this`pending
      ensures Now() == old(Now()).(staging := Unclaimed(old(Now()).staging, key))
    {
      claims := claims - {key};
      claimCount := Minus(claimCount, key.project);
      pending := pending - {key};
    }

    method Keep(key: Key)
      modifies this`pending, this`held, this`reservedBytes, this`handles, this`next
      ensures var s := old(Now()); Now() == s.(staging := Kept(limits, s.staging, key, s.next), next := s.next + 1)
    {
      held := held[key := Record(next, false)];
      handles := handles[next := Handle(key, false)];
      reservedBytes := reservedBytes + limits.reservation;
      pending := pending - {key};
      next := next + 1;
    }

    method SettleClose()
      modifies this`closeResolved
      ensures Now() == Settled(old(Now()))
    {
      if closed && active == 0 && queue == [] && held == map[] && pending == {} {
        closeResolved := true;
      }
    }

    method FinalizeAttemptReservation(key: Key)
      requires key in held
      modifies this`held, this`reservedBytes, this`claims, this`claimCount
      ensures Now() == old(Now()).(staging := Finalized(limits, old(Now()).staging, key))
    {
      held := held - {key};
      reservedBytes := reservedBytes - limits.reservation;
      claims := claims - {key};
      claimCount := Minus(claimCount, key.project);
    }

    /** A reservation's `release`, which does nothing the second time. */
    method Release(id: nat)
      requires Valid()
      modifies this
      ensures Valid() && Now() == Step(old(Now()), ReleaseReservation(id))
    {
      hide Inv, Quiet, Finalized;
      StepKeeps(Now(), ReleaseReservation(id));
      if id !in handles || handles[id].released {
        return;
      }
      HandleHeld(Now(), id);
      var key := handles[id].key;
      handles := handles[id := Handle(key, true)];
      held := held[key := held[key].(releaseRequested := true)];
      if key !in attemptsInFlight {
        FinalizeAttemptReservation(key);
        SettleClose();
      }
    }

    method Acquire(key: Key)
      requires Valid()
      modifies this
      ensures Valid() && Now() == Step(old(Now()), Event.Acquire(key))
    {
      hide Inv, Quiet, Drained;
      StepKeeps(Now(), Event.Acquire(key));
      if closed || key !in held || held[key].releaseRequested || key in attemptsInFlight
         || |queue| >= limits.queueMax || At(queuedByProject, key.project) >= limits.queueMaxPerProject {
        return;
      }
      EnteredLink(Now(), key);
      attemptsInFlight := attemptsInFlight + {key};
      queue := queue + [Waiter(next, key)];
      queuedByProject := Plus(queuedByProject, key.project);
      next := next + 1;
      DrainQueue();
    }

    method FindRunnable() returns (k: nat)
      ensures k == FirstRunnable(Now(), 0)
    {
      k := 0;
      while k < |queue| && !MayRun(limits, Now().streams, queue[k].key)
        invariant 0 <= k <= |queue| && FirstRunnable(Now(), 0) == FirstRunnable(Now(), k)
      {
        k := k + 1;
      }
    }

    /** The waiter at `k` gets its stream. */
    method StartOne(k: nat)
      requires k < |queue|
      modifies this`queue, this`queuedByProject, this`active, this`activeByProject, this`running, this`permits
      ensures Now() == StartedAt(old(Now()), k)
    {
      var waiter := queue[k];
      queue := queue[..k] + queue[k + 1..];
      queuedByProject := Minus(queuedByProject, waiter.key.project);
      active := active + 1;
      activeByProject := Plus(activeByProject, waiter.key.project);
      running := running[waiter.key := waiter.ticket];
      permits := permits[waiter.ticket := Handle(waiter.key, false)];
    }

    method DrainQueue()
      requires Inv(Now())
      modifies this`queue, this`queuedByProject, this`active, this`activeByProject, this`running, this`permits
      ensures Now() == Drained(old(Now()))
    {
      hide Inv, StartedAt, FirstRunnable;
      while !closed && active < limits.maxStreams
        invariant Inv(Now()) && Drained(Now()) == Drained(old(Now()))
        decreases |queue|
      {
        var k := FindRunnable();
        if k == |queue| {
          return;
        }
        StartedSame(Now(), k);
        StartedAtKeeps(Now(), k);
        StartOne(k);
      }
      AllSlotsTaken(Now());
    }

    /** The attempt is no longer in flight: a release asked for meanwhile takes effect. */
    method Land(key: Key)
      modifies this`attemptsInFlight, this`held, this`reservedBytes, this`claims, this`claimCount
      ensures Now() == Landed(old(Now()), key)
    {
      hide Finalized;
      attemptsInFlight := attemptsInFlight - {key};
      if key in held && held[key].releaseRequested {
        FinalizeAttemptReservation(key);
      }
    }

    method RemoveWaiter(i: nat)
      requires i < |queue|
      modifies this`queue, this`queuedByProject, this`attemptsInFlight, this`held, this`reservedBytes, this`claims, this`claimCount
      ensures Now() == DismissedAt(old(Now()), i)
    {
      hide Landed;
      var waiter := queue[i];
      queue := queue[..i] + queue[i + 1..];
      queuedByProject := Minus(queuedByProject, waiter.key.project);
      Land(waiter.key);
    }

    /** A queue timeout or an abort. */
    method RemoveAndReject(ticket: nat)
      requires Valid()
      modifies this
      ensures Valid() && Now() == Step(old(Now()), Dismiss(ticket))
    {
      hide Inv, Quiet, Drained, DismissedAt;
      StepKeeps(Now(), Dismiss(ticket));
      var i := Position(queue, ticket);
      if i < |queue| {
        StillOpen(Now());
        DismissedKeeps(Now(), i);
        RemoveWaiter(i);
        DrainQueue();
      }
    }

    method StopOne(ticket: nat)
      requires ticket in permits
      modifies this`permits, this`active, this`activeByProject, this`running
      ensures Now() == old(Now()).(streams := Stopped(old(Now()).streams, ticket))
    {
      var key := permits[ticket].key;
      permits := permits[ticket := Handle(key, true)];
      active := active - 1;
      activeByProject := Minus(activeByProject, key.project);
      running := running - {key};
    }

    /** A stream permit's `release`. */
    method ReleaseStream(ticket: nat)
      requires Valid()
      modifies this
      ensures Valid() && Now() == Step(old(Now()), Event.ReleaseStream(ticket))
    {
      hide Inv, Quiet, Drained, Landed, Stopped, Settled;
      StepKeeps(Now(), Event.ReleaseStream(ticket));
      if ticket !in permits || permits[ticket].released {
        return;
      }
      StoppedLands(Now(), ticket);
      var key := permits[ticket].key;
      StopOne(ticket);
      Land(key);
      SettledInv(Now());
      SettleClose();
      DrainQueue();
    }

    method Close()
      requires Valid()
      modifies this
      ensures Valid() && Now() == Step(old(Now()), Event.Close)
    {
      hide Inv, Quiet, DismissedAt;
      StepKeeps(Now(), Event.Close);
      if closed {
        return;
      }
      closed := true;
      ghost var was := Now();
      while queue != []
        invariant AllDismissed(Now()) == AllDismissed(was)
        decreases |queue|
      {
        ghost var before := Now();
        Shorter(before);
        RemoveWaiter(0);
      }
      SettleClose();
    }
  }

  lemma Shorter(s: State)
    requires s.lobby.queue != []
    ensures |DismissedAt(s, 0).lobby.queue| < |s.lobby.queue|
  {}

  lemma AllSlotsTaken(s: State)
    requires s.closed || s.streams.active >= s.limits.maxStreams
    ensures Drained(s) == s
  {}

  lemma SettledInv(s: State)
    requires Inv(s)
    ensures Inv(Settled(s))
  {
    hide StagingOk, HandlesOk, StreamsOk, PermitsOk, LobbyOk, LinkOk, NumbersOk;
  }

  lemma KeptOnly(s: State, key: Key)
    ensures key in Kept(s.limits, s.staging, key, s.next).held && Unclaimed(s.staging, key).held == s.staging.held
    ensures forall t: State :: Settled(t).staging == t.staging
  {}

  lemma PendingClaimed(s: State, key: Key)
    requires Inv(s)
    ensures key in s.staging.pending ==> key in s.staging.claims
  {
    hide HandlesOk, StreamsOk, PermitsOk, LobbyOk, LinkOk, NumbersOk;
  }

  lemma HandleHeld(s: State, id: nat)
    requires Inv(s) && id in s.staging.handles && !s.staging.handles[id].released
    ensures s.staging.handles[id].key in s.staging.held
  {
    hide StagingOk, StreamsOk, PermitsOk, LobbyOk, LinkOk, NumbersOk;
  }
}
