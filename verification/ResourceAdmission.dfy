/** Admission of Git child processes: global, per-class and per-project caps, a bounded queue, permits with
    idempotent release, and a draining close. Every public method is one synchronous event of the source. */
module ResourceAdmission {
  import opened Common

  type Project = nat

  type Signal = nat

  datatype Class = Read | Write

  datatype Key = Key(project: Project, cls: Class)

  datatype Counts = Counts(read: int, write: int) {
    function Of(c: Class): int { if c.Read? then read else write }

    function Total(): int { read + write }

    function Plus(c: Class, n: int): Counts { if c.Read? then this.(read := read + n) else this.(write := write + n) }
  }

  datatype Code = Busy | Cancelled | Closed | InvalidProject

  datatype Limits = Limits(maxChildren: int, maxChildrenPerProject: int, maxQueued: Counts, maxActive: Counts,
                           queueMax: int, queueMaxPerProject: int) {
    /** What the constructor's option check demands. */
    predicate Normalized() {
      && maxChildrenPerProject > 0 && maxQueued.read > 0 && maxQueued.write > 0
      && maxActive.read > 0 && maxActive.write > 0 && queueMaxPerProject > 0
      && maxChildrenPerProject < maxChildren && maxActive.read < maxChildren && maxActive.write < maxChildren
      && maxQueued.read < queueMax && maxQueued.write < queueMax && queueMaxPerProject < queueMax
    }
  }

  /** One call of `acquireGitChild`, numbered by arrival. */
  datatype Request = Request(ticket: nat, key: Key, signal: Option<Signal>)

  /** How the promise of a request settles. */
  datatype Outcome = Granted | Rejected(code: Code)

  /** A count object in memory, named by its address. */
  type Address = nat

  /** What a permit's closure captures. */
  datatype Permit = Permit(key: Key, count: Address, released: bool)

  // ----- counting

  /** How many requests of each class there are, of one project or of all. */
  function Tally(s: seq<Request>, of: Option<Project>): (n: Counts)
    ensures n.read >= 0 && n.write >= 0
  {
    if s == [] then Counts(0, 0)
    else
      var rest, last := Tally(s[..|s| - 1], of), s[|s| - 1].key;
      if of.None? || of.value == last.project then rest.Plus(last.cls, 1) else rest
  }

  function Sum(a: Counts, b: Counts): Counts { Counts(a.read + b.read, a.write + b.write) }

  lemma TallyNatural(s: seq<Request>, of: Option<Project>)
    ensures Tally(s, of).read >= 0 && Tally(s, of).write >= 0
  {}

  lemma TallyAdded(s: seq<Request>, r: Request, of: Option<Project>)
    ensures Tally(s + [r], of)
            == if of.None? || of.value == r.key.project then Tally(s, of).Plus(r.key.cls, 1) else Tally(s, of)
  {
    assert (s + [r])[..|s|] == s;
  }

  lemma {:induction false} TallyJoined(a: seq<Request>, b: seq<Request>, of: Option<Project>)
    ensures Tally(a + b, of) == Sum(Tally(a, of), Tally(b, of))
    decreases |b|
  {
    if b == [] {
      assert a + b == a;
    } else {
      var front, last := b[..|b| - 1], b[|b| - 1];
      assert a + b == (a + front) + [last] && b == front + [last];
      TallyJoined(a, front, of);
      TallyAdded(a + front, last, of);
      TallyAdded(front, last, of);
      hide Tally;
    }
  }

  lemma TallyWithout(s: seq<Request>, i: nat, of: Option<Project>)
    requires i < |s|
    ensures Tally(Without(s, i), of)
            == if of.None? || of.value == s[i].key.project then Tally(s, of).Plus(s[i].key.cls, -1) else Tally(s, of)
  {
    hide Tally;
    TallyAdded(s[..i], s[i], of);
    TallyJoined(s[..i] + [s[i]], s[i + 1..], of);
    TallyJoined(s[..i], s[i + 1..], of);
    assert s[..i] + [s[i]] + s[i + 1..] == s;
  }

  lemma TallyPositive(s: seq<Request>, i: nat)
    requires i < |s|
    ensures Tally(s, Some(s[i].key.project)).Total() > 0
  {
    TallyWithout(s, i, Some(s[i].key.project));
    hide Tally;
  }

  ghost predicate Has(s: seq<Request>, ticket: nat) { exists i :: 0 <= i < |s| && s[i].ticket == ticket }

  lemma HasWithout(s: seq<Request>, i: nat, ticket: nat)
    requires i < |s| && Has(s, ticket) && s[i].ticket != ticket
    ensures Has(Without(s, i), ticket)
  {
    var j :| 0 <= j < |s| && s[j].ticket == ticket;
    assert Without(s, i)[if j < i then j else j - 1].ticket == ticket;
  }

  lemma HasAdded(s: seq<Request>, r: Request, ticket: nat)
    requires Has(s, ticket) || r.ticket == ticket
    ensures Has(s + [r], ticket)
  {
    if Has(s, ticket) {
      var j :| 0 <= j < |s| && s[j].ticket == ticket;
      assert (s + [r])[j].ticket == ticket;
    } else {
      assert (s + [r])[|s|].ticket == ticket;
    }
  }

  lemma {:induction false} TallyLength(s: seq<Request>)
    ensures Tally(s, None).Total() == |s|
  {
    if s != [] {
      TallyLength(s[..|s| - 1]);
    }
  }

  // ----- order

  ghost predicate Ascending(s: seq<Request>) {
    forall i, j | 0 <= i < j < |s| :: s[i].ticket < s[j].ticket
  }

  /** Grants of one key follow arrival order, and all precede those still waiting. */
  ghost predicate InOrder(served: seq<Request>, queue: seq<Request>) {
    && (forall i, j | 0 <= i < j < |served| && served[i].key == served[j].key :: served[i].ticket < served[j].ticket)
    && (forall i, j | 0 <= i < |served| && 0 <= j < |queue| && served[i].key == queue[j].key ::
          served[i].ticket < queue[j].ticket)
    && Ascending(queue)
  }

  ghost predicate Below(s: seq<Request>, next: nat) {
    forall i | 0 <= i < |s| :: s[i].ticket < next
  }

  /** Serving the first waiter of its key keeps the order. */
  lemma ServedNext(served: seq<Request>, queue: seq<Request>, i: nat)
    requires InOrder(served, queue) && i < |queue|
    requires forall j | 0 <= j < i :: queue[j].key != queue[i].key
    ensures InOrder(served + [queue[i]], Without(queue, i))
  {
    WithoutAt(queue, i);
  }

  lemma Dropped(served: seq<Request>, queue: seq<Request>, i: nat)
    requires InOrder(served, queue) && i < |queue|
    ensures InOrder(served, Without(queue, i))
  {
    WithoutAt(queue, i);
  }

  // ----- running children

  datatype Running = Running(active: Counts, activeByProject: map<Project, Address>, memory: map<Address, Counts>,
                             permits: map<nat, Permit>, live: seq<Request>)

  /** The shared count of a project with running children. */
  function ProjectCount(s: Running, p: Project): Counts {
    Lookup(s.activeByProject, s.memory, p)
  }

  function Lookup(at: map<Project, Address>, memory: map<Address, Counts>, p: Project): Counts {
    if p in at && at[p] in memory then memory[at[p]] else Counts(0, 0)
  }

  lemma LookupPut(at: map<Project, Address>, memory: map<Address, Counts>, q: Project, a: Address, n: Counts, p: Project)
    requires forall x | x in at && x != q :: at[x] != a
    ensures Lookup(at[q := a], memory[a := n], p) == if p == q then n else Lookup(at, memory, p)
  {}

  /** `#canGrant`. */
  predicate CanGrant(limits: Limits, s: Running, key: Key) {
    && s.active.Total() < limits.maxChildren
    && s.active.Of(key.cls) < limits.maxActive.Of(key.cls)
    && (key.project in s.activeByProject ==> ProjectCount(s, key.project).Total() < limits.maxChildrenPerProject)
  }

  /** Counters of running children equal the live permits they count, and stay within the caps. */
  ghost predicate TotalsOk(limits: Limits, s: Running) {
    && s.active == Tally(s.live, None)
    && s.active.read <= limits.maxActive.read && s.active.write <= limits.maxActive.write
    && s.active.Total() <= limits.maxChildren
  }

  /** The count object of a project: its own, with something to count, within the cap. */
  ghost predicate Cell(limits: Limits, s: Running, p: Project)
    requires p in s.activeByProject
  {
    var a := s.activeByProject[p];
    a in s.memory && a in s.permits && s.permits[a].key.project == p
    && 0 < s.memory[a].Total() <= limits.maxChildrenPerProject
  }

  ghost predicate ProjectsOk(limits: Limits, s: Running) {
    forall p | p in s.activeByProject :: Cell(limits, s, p)
  }

  ghost predicate KeysOk(s: Running) {
    forall p :: ProjectCount(s, p) == Tally(s.live, Some(p))
  }

  /** Each live permit holds the count object that is in the map; every other permit has been released. */
  ghost predicate PermitsOk(s: Running) {
    && (forall i, j | 0 <= i < j < |s.live| :: s.live[i].ticket != s.live[j].ticket)
    && (forall i | 0 <= i < |s.live| ::
          && s.live[i].ticket in s.permits && s.live[i].key.project in s.activeByProject
          && s.permits[s.live[i].ticket] == Permit(s.live[i].key, s.activeByProject[s.live[i].key.project], false))
    && (forall t | t in s.permits && !s.permits[t].released :: Has(s.live, t))
  }

  ghost predicate RunningOk(limits: Limits, s: Running) {
    TotalsOk(limits, s) && ProjectsOk(limits, s) && KeysOk(s) && PermitsOk(s)
  }

  /** `#createPermit`: a fresh count object is allocated at the ticket's own address. */
  function WithPermit(s: Running, r: Request): Running {
    var p := r.key.project;
    var count := if p in s.activeByProject then s.activeByProject[p] else r.ticket;
    s.(active := s.active.Plus(r.key.cls, 1),
       activeByProject := s.activeByProject[p := count],
       memory := s.memory[count := ProjectCount(s, p).Plus(r.key.cls, 1)],
       permits := s.permits[r.ticket := Permit(r.key, count, false)],
       live := s.live + [r])
  }

  lemma PermitTotals(limits: Limits, s: Running, r: Request)
    requires TotalsOk(limits, s) && CanGrant(limits, s, r.key)
    ensures TotalsOk(limits, WithPermit(s, r))
  {
    TallyAdded(s.live, r, None);
    hide Tally;
  }

  lemma CellAt(limits: Limits, s: Running, p: Project)
    requires ProjectsOk(limits, s) && p in s.activeByProject
    ensures Cell(limits, s, p)
  {
    hide Cell;
  }

  lemma CellsMake(limits: Limits, s: Running)
    requires forall p | p in s.activeByProject :: Cell(limits, s, p)
    ensures ProjectsOk(limits, s)
  {
    hide Cell;
  }

  /** No other project's count lives where this request's will. */
  lemma AddressApart(limits: Limits, s: Running, r: Request, x: Project)
    requires ProjectsOk(limits, s) && r.ticket !in s.permits && x in s.activeByProject && x != r.key.project
    ensures s.activeByProject[x] != if r.key.project in s.activeByProject then s.activeByProject[r.key.project] else r.ticket
  {
    assert Cell(limits, s, x);
    assert r.key.project in s.activeByProject ==> Cell(limits, s, r.key.project);
  }

  /** What a new permit does to the count of each project. */
  lemma PermitCounts(limits: Limits, s: Running, r: Request, p: Project)
    requires ProjectsOk(limits, s) && r.ticket !in s.permits
    ensures ProjectCount(WithPermit(s, r), p)
            == if p == r.key.project then ProjectCount(s, p).Plus(r.key.cls, 1) else ProjectCount(s, p)
  {
    hide ProjectsOk, Lookup;
    var q := r.key.project;
    var count := if q in s.activeByProject then s.activeByProject[q] else r.ticket;
    forall x | x in s.activeByProject && x != q ensures s.activeByProject[x] != count {
      AddressApart(limits, s, r, x);
    }
    LookupPut(s.activeByProject, s.memory, q, count, ProjectCount(s, q).Plus(r.key.cls, 1), p);
  }

  lemma PermitKeys(limits: Limits, s: Running, r: Request)
    requires ProjectsOk(limits, s) && KeysOk(s) && r.ticket !in s.permits
    ensures KeysOk(WithPermit(s, r))
  {
    hide Tally, ProjectCount, ProjectsOk;
    forall p ensures ProjectCount(WithPermit(s, r), p) == Tally(WithPermit(s, r).live, Some(p)) {
      PermitCounts(limits, s, r, p);
      TallyAdded(s.live, r, Some(p));
      assert ProjectCount(s, p) == Tally(s.live, Some(p));
    }
  }

  lemma PermitCell(limits: Limits, s: Running, r: Request, p: Project)
    requires limits.Normalized() && CanGrant(limits, s, r.key) && r.ticket !in s.permits
    requires p in s.activeByProject ==> Cell(limits, s, p)
    requires r.key.project in s.activeByProject ==> Cell(limits, s, r.key.project)
    requires p in WithPermit(s, r).activeByProject
    ensures Cell(limits, WithPermit(s, r), p)
  {}

  lemma PermitProjects(limits: Limits, s: Running, r: Request)
    requires limits.Normalized() && ProjectsOk(limits, s) && CanGrant(limits, s, r.key) && r.ticket !in s.permits
    ensures ProjectsOk(limits, WithPermit(s, r))
  {
    hide Cell, CanGrant;
    forall p | p in WithPermit(s, r).activeByProject ensures Cell(limits, WithPermit(s, r), p) {
      PermitCell(limits, s, r, p);
    }
  }

  lemma PermitPermits(limits: Limits, s: Running, r: Request)
    requires PermitsOk(s) && ProjectsOk(limits, s) && r.ticket !in s.permits
    ensures PermitsOk(WithPermit(s, r))
  {
    hide ProjectsOk, ProjectCount, Has;
    var t := WithPermit(s, r);
    assert t.live[|s.live|] == r;
    forall k | k in t.permits && !t.permits[k].released ensures Has(t.live, k) {
      HasAdded(s.live, r, k);
    }
  }

  lemma PermitKeeps(limits: Limits, s: Running, r: Request)
    requires limits.Normalized() && RunningOk(limits, s) && CanGrant(limits, s, r.key) && r.ticket !in s.permits
    ensures RunningOk(limits, WithPermit(s, r))
  {
    PermitTotals(limits, s, r);
    PermitProjects(limits, s, r);
    PermitKeys(limits, s, r);
    PermitPermits(limits, s, r);
    hide TotalsOk, ProjectsOk, KeysOk, PermitsOk, WithPermit;
  }

  /** Releasing a permit through the count object its closure captured. */
  function Released(s: Running, ticket: nat): Running
    requires ticket in s.permits
  {
    var permit := s.permits[ticket];
    var count := (if permit.count in s.memory then s.memory[permit.count] else Counts(0, 0)).Plus(permit.key.cls, -1);
    s.(active := s.active.Plus(permit.key.cls, -1),
       memory := s.memory[permit.count := count],
       activeByProject := if count.Total() == 0 then s.activeByProject - {permit.key.project} else s.activeByProject,
       permits := s.permits[ticket := permit.(released := true)],
       live := WithoutTicket(s.live, ticket))
  }

  /** The position of a ticket, or the length. */
  function Position(s: seq<Request>, ticket: nat): (i: nat)
    ensures i <= |s| && (i < |s| ==> s[i].ticket == ticket)
    ensures forall j | 0 <= j < i :: s[j].ticket != ticket
  {
    if s == [] || s[0].ticket == ticket then 0 else 1 + Position(s[1..], ticket)
  }

  function WithoutTicket(s: seq<Request>, ticket: nat): seq<Request> {
    var i := Position(s, ticket);
    if i < |s| then Without(s, i) else s
  }

  lemma LivePosition(s: Running, ticket: nat)
    requires PermitsOk(s) && ticket in s.permits && !s.permits[ticket].released
    ensures var i, permit := Position(s.live, ticket), s.permits[ticket];
            && i < |s.live| && WithoutTicket(s.live, ticket) == Without(s.live, i) && s.live[i].key == permit.key
            && permit.key.project in s.activeByProject && permit.count == s.activeByProject[permit.key.project]
  {
    assert Has(s.live, ticket);
  }

  lemma ReleaseTotals(limits: Limits, s: Running, ticket: nat)
    requires TotalsOk(limits, s) && PermitsOk(s) && ticket in s.permits && !s.permits[ticket].released
    ensures TotalsOk(limits, Released(s, ticket))
  {
    hide Tally, PermitsOk, WithoutTicket, Position, Without, ProjectCount;
    LivePosition(s, ticket);
    TallyWithout(s.live, Position(s.live, ticket), None);
  }

  /** What a release does to the count of each project. */
  lemma ReleaseCounts(limits: Limits, s: Running, ticket: nat, p: Project)
    requires ProjectsOk(limits, s) && ticket in s.permits
    requires var q := s.permits[ticket].key.project; q in s.activeByProject && s.activeByProject[q] == s.permits[ticket].count
    requires var n := ProjectCount(s, s.permits[ticket].key.project).Plus(s.permits[ticket].key.cls, -1);
             n.read >= 0 && n.write >= 0
    ensures var permit := s.permits[ticket];
            ProjectCount(Released(s, ticket), p)
            == if p == permit.key.project then ProjectCount(s, p).Plus(permit.key.cls, -1) else ProjectCount(s, p)
  {
    hide ProjectsOk;
    var permit := s.permits[ticket];
    var q := permit.key.project;
    CellAt(limits, s, q);
    if p in s.activeByProject { CellAt(limits, s, p); }
  }

  lemma ReleaseNatural(s: Running, ticket: nat)
    requires KeysOk(s) && PermitsOk(s) && ticket in s.permits && !s.permits[ticket].released
    ensures var n := ProjectCount(s, s.permits[ticket].key.project).Plus(s.permits[ticket].key.cls, -1);
            n.read >= 0 && n.write >= 0 && n == Tally(Released(s, ticket).live, Some(s.permits[ticket].key.project))
  {
    hide Tally, WithoutTicket, Position, Without, ProjectCount, PermitsOk;
    var p := s.permits[ticket].key.project;
    LivePosition(s, ticket);
    TallyWithout(s.live, Position(s.live, ticket), Some(p));
    TallyNatural(Released(s, ticket).live, Some(p));
    assert ProjectCount(s, p) == Tally(s.live, Some(p));
  }

  lemma ReleaseKeys(limits: Limits, s: Running, ticket: nat)
    requires ProjectsOk(limits, s) && KeysOk(s) && PermitsOk(s) && ticket in s.permits && !s.permits[ticket].released
    ensures KeysOk(Released(s, ticket))
  {
    hide Tally, WithoutTicket, Position, Without, ProjectCount, PermitsOk, ProjectsOk;
    LivePosition(s, ticket);
    ReleaseNatural(s, ticket);
    forall p ensures ProjectCount(Released(s, ticket), p) == Tally(Released(s, ticket).live, Some(p)) {
      ReleaseCounts(limits, s, ticket, p);
      TallyWithout(s.live, Position(s.live, ticket), Some(p));
      assert ProjectCount(s, p) == Tally(s.live, Some(p));
    }
  }

  lemma ReleaseProjects(limits: Limits, s: Running, ticket: nat)
    requires ProjectsOk(limits, s) && KeysOk(s) && PermitsOk(s) && ticket in s.permits && !s.permits[ticket].released
    ensures ProjectsOk(limits, Released(s, ticket))
  {
    hide Tally, WithoutTicket, Position, Without, KeysOk, ProjectsOk, PermitsOk;
    var t := Released(s, ticket);
    LivePosition(s, ticket);
    ReleaseNatural(s, ticket);
    forall p | p in t.activeByProject ensures Cell(limits, t, p) {
      var q := s.permits[ticket].key.project;
      CellAt(limits, s, q);
      CellAt(limits, s, p);
    }
    CellsMake(limits, t);
  }

  lemma ReleasedParts(s: Running, ticket: nat)
    requires PermitsOk(s) && ticket in s.permits && !s.permits[ticket].released
    ensures var t, i := Released(s, ticket), Position(s.live, ticket);
            && i < |s.live| && s.live[i].ticket == ticket && t.live == Without(s.live, i)
            && t.permits == s.permits[ticket := s.permits[ticket].(released := true)]
            && forall p | p in t.activeByProject :: p in s.activeByProject && t.activeByProject[p] == s.activeByProject[p]
  {
    LivePosition(s, ticket);
    hide PermitsOk, Position, Without;
  }

  lemma ReleasePermits(limits: Limits, s: Running, ticket: nat)
    requires PermitsOk(s) && ticket in s.permits && !s.permits[ticket].released
    requires ProjectsOk(limits, Released(s, ticket)) && KeysOk(Released(s, ticket))
    ensures PermitsOk(Released(s, ticket))
  {
    hide ProjectsOk, ProjectCount, WithoutTicket, Position, Tally, KeysOk, Has, Released, Without;
    var t, i := Released(s, ticket), Position(s.live, ticket);
    ReleasedParts(s, ticket);
    WithoutAt(s.live, i);
    forall j | 0 <= j < |t.live| ensures t.live[j].key.project in t.activeByProject {
      LiveProject(t, j);
    }
    forall k | k in t.permits && !t.permits[k].released ensures Has(t.live, k) {
      HasWithout(s.live, i, k);
    }
  }

  lemma LiveProject(s: Running, j: nat)
    requires KeysOk(s) && j < |s.live|
    ensures s.live[j].key.project in s.activeByProject
  {
    hide Tally;
    TallyPositive(s.live, j);
    assert ProjectCount(s, s.live[j].key.project) == Tally(s.live, Some(s.live[j].key.project));
  }

  lemma ReleaseKeeps(limits: Limits, s: Running, ticket: nat)
    requires RunningOk(limits, s) && ticket in s.permits && !s.permits[ticket].released
    ensures RunningOk(limits, Released(s, ticket))
  {
    ReleaseTotals(limits, s, ticket);
    ReleaseKeys(limits, s, ticket);
    ReleaseProjects(limits, s, ticket);
    ReleasePermits(limits, s, ticket);
    hide TotalsOk, ProjectsOk, KeysOk, PermitsOk, Released;
  }

  // ----- the queue

  datatype Queue = Queue(queued: Counts, byProject: map<Project, int>, waiting: seq<Request>)

  ghost predicate QueueOk(limits: Limits, q: Queue) {
    && q.queued == Tally(q.waiting, None)
    && q.queued.read <= limits.maxQueued.read && q.queued.write <= limits.maxQueued.write
    && |q.waiting| <= limits.queueMax
    && (forall p :: p in q.byProject <==> Tally(q.waiting, Some(p)).Total() > 0)
    && (forall p | p in q.byProject :: q.byProject[p] == Tally(q.waiting, Some(p)).Total() <= limits.queueMaxPerProject)
  }

  function Waiting(q: Queue, p: Project): int { if p in q.byProject then q.byProject[p] else 0 }

  function Joined(q: Queue, r: Request): Queue {
    Queue(q.queued.Plus(r.key.cls, 1), q.byProject[r.key.project := Waiting(q, r.key.project) + 1], q.waiting + [r])
  }

  /** The waiter at `i` leaves: `#settleWaiter`. */
  function Left(q: Queue, i: nat): Queue
    requires i < |q.waiting|
  {
    var r := q.waiting[i];
    var count := (if r.key.project in q.byProject then q.byProject[r.key.project] else 1) - 1;
    Queue(q.queued.Plus(r.key.cls, -1),
          if count == 0 then q.byProject - {r.key.project} else q.byProject[r.key.project := count],
          Without(q.waiting, i))
  }

  predicate HasRoom(limits: Limits, q: Queue, key: Key) {
    && |q.waiting| < limits.queueMax && q.queued.Of(key.cls) < limits.maxQueued.Of(key.cls)
    && Waiting(q, key.project) < limits.queueMaxPerProject
  }

  lemma JoinedKeeps(limits: Limits, q: Queue, r: Request)
    requires limits.Normalized() && QueueOk(limits, q) && HasRoom(limits, q, r.key)
    ensures QueueOk(limits, Joined(q, r))
  {
    hide Tally;
    TallyAdded(q.waiting, r, None);
    forall p
      ensures Tally(q.waiting + [r], Some(p)).Total() == Tally(q.waiting, Some(p)).Total() + if p == r.key.project then 1 else 0
      ensures Tally(q.waiting, Some(p)).Total() >= 0
    {
      TallyAdded(q.waiting, r, Some(p));
      TallyNatural(q.waiting, Some(p));
    }
  }

  lemma LeftKeeps(limits: Limits, q: Queue, i: nat)
    requires QueueOk(limits, q) && i < |q.waiting|
    ensures QueueOk(limits, Left(q, i))
  {
    hide Tally, Without;
    var r := q.waiting[i];
    WithoutAt(q.waiting, i);
    TallyWithout(q.waiting, i, None);
    TallyPositive(q.waiting, i);
    forall p
      ensures Tally(Without(q.waiting, i), Some(p)).Total()
              == Tally(q.waiting, Some(p)).Total() - if p == r.key.project then 1 else 0
      ensures Tally(Without(q.waiting, i), Some(p)).Total() >= 0
    {
      TallyWithout(q.waiting, i, Some(p));
      TallyNatural(Without(q.waiting, i), Some(p));
    }
  }

  // ----- the whole state

  datatype State = State(limits: Limits, running: Running, queue: Queue, outcomes: map<nat, Outcome>,
                         aborted: set<Signal>, closed: bool, closeResolved: bool, served: seq<Request>, next: nat)

  predicate Aborted(s: State, r: Request) { r.signal.Some? && r.signal.value in s.aborted }

  /** A request has an outcome once it is no longer waiting, and a permit exactly when that outcome is a grant. */
  ghost predicate OutcomesOk(s: State) {
    && (forall i | 0 <= i < |s.queue.waiting| :: s.queue.waiting[i].ticket !in s.outcomes)
    && (forall t | t in s.outcomes :: t < s.next)
    && (forall t :: t in s.running.permits <==> t in s.outcomes && s.outcomes[t].Granted?)
  }

  ghost predicate OrderOk(s: State) {
    InOrder(s.served, s.queue.waiting) && Below(s.served, s.next) && Below(s.queue.waiting, s.next)
  }

  ghost predicate Inv(s: State) {
    && s.limits.Normalized() && RunningOk(s.limits, s.running) && QueueOk(s.limits, s.queue)
    && OutcomesOk(s) && OrderOk(s)
    && (s.closed ==> s.queue.waiting == [])
    && (s.closeResolved <==> s.closed && s.running.active.Total() == 0)
  }

  /** No waiter could be granted, and none waits whose caller has aborted. */
  ghost predicate Quiet(s: State) {
    forall i | 0 <= i < |s.queue.waiting| ::
      !CanGrant(s.limits, s.running, s.queue.waiting[i].key) && !Aborted(s, s.queue.waiting[i])
  }

  function Rejects(s: State, i: nat, code: Code): State
    requires i < |s.queue.waiting|
  {
    s.(queue := Left(s.queue, i), outcomes := s.outcomes[s.queue.waiting[i].ticket := Rejected(code)])
  }

  function Grants(s: State, i: nat): State
    requires i < |s.queue.waiting|
  {
    var r := s.queue.waiting[i];
    s.(queue := Left(s.queue, i), running := WithPermit(s.running, r), outcomes := s.outcomes[r.ticket := Granted],
       served := s.served + [r])
  }

  /** The tickets of waiters differ. */
  lemma LeavingApart(s: State, i: nat)
    requires OutcomesOk(s) && OrderOk(s) && i < |s.queue.waiting|
    ensures forall j | 0 <= j < |s.queue.waiting| && j != i :: s.queue.waiting[j].ticket != s.queue.waiting[i].ticket
    ensures s.queue.waiting[i].ticket < s.next && s.queue.waiting[i].ticket !in s.running.permits
  {}

  /** Leaving the queue with any outcome. */
  lemma SettledOutcome(s: State, t: State, i: nat, outcome: Outcome)
    requires OutcomesOk(s) && OrderOk(s) && i < |s.queue.waiting| && t.queue.waiting == Without(s.queue.waiting, i)
    requires var k := s.queue.waiting[i].ticket;
             t.outcomes == s.outcomes[k := outcome] && t.next == s.next
             && if outcome.Granted? then k in t.running.permits && t.running.permits.Keys == s.running.permits.Keys + {k}
                else t.running.permits == s.running.permits
    ensures OutcomesOk(t)
  {
    hide InOrder;
    WithoutAt(s.queue.waiting, i);
    LeavingApart(s, i);
  }

  lemma LeftOrder(s: State, t: State, i: nat)
    requires OrderOk(s) && i < |s.queue.waiting| && t.queue.waiting == Without(s.queue.waiting, i)
    requires t.served == s.served && t.next == s.next
    ensures OrderOk(t)
  {
    hide InOrder;
    WithoutAt(s.queue.waiting, i);
    Dropped(s.served, s.queue.waiting, i);
  }

  lemma ServedOrder(s: State, t: State, i: nat)
    requires OrderOk(s) && i < |s.queue.waiting| && t.queue.waiting == Without(s.queue.waiting, i)
    requires t.served == s.served + [s.queue.waiting[i]] && t.next == s.next
    requires forall j | 0 <= j < i :: s.queue.waiting[j].key != s.queue.waiting[i].key
    ensures OrderOk(t)
  {
    hide InOrder;
    WithoutAt(s.queue.waiting, i);
    ServedNext(s.served, s.queue.waiting, i);
  }

  lemma LeftWaiting(q: Queue, i: nat)
    requires i < |q.waiting|
    ensures Left(q, i).waiting == Without(q.waiting, i)
  {}

  lemma RejectsKeeps(s: State, i: nat, code: Code)
    requires Inv(s) && i < |s.queue.waiting|
    ensures Inv(Rejects(s, i, code))
  {
    hide QueueOk, RunningOk, OutcomesOk, OrderOk, Without, Left;
    var t := Rejects(s, i, code);
    LeftWaiting(s.queue, i);
    LeftKeeps(s.limits, s.queue, i);
    SettledOutcome(s, t, i, Rejected(code));
    LeftOrder(s, t, i);
  }

  lemma PermitParts(s: Running, r: Request)
    ensures var t := WithPermit(s, r);
            && r.ticket in t.permits && t.permits.Keys == s.permits.Keys + {r.ticket}
            && t.active == s.active.Plus(r.key.cls, 1) && t.live == s.live + [r]
  {}

  /** A waiter is granted: right when no earlier one has its key. */
  lemma GrantsKeeps(s: State, i: nat)
    requires Inv(s) && i < |s.queue.waiting| && !s.closed && CanGrant(s.limits, s.running, s.queue.waiting[i].key)
    requires forall j | 0 <= j < i :: s.queue.waiting[j].key != s.queue.waiting[i].key
    ensures Inv(Grants(s, i))
  {
    hide QueueOk, RunningOk, OutcomesOk, OrderOk, Without, CanGrant, Left, WithPermit;
    var t, r := Grants(s, i), s.queue.waiting[i];
    LeftWaiting(s.queue, i);
    LeavingApart(s, i);
    LeftKeeps(s.limits, s.queue, i);
    PermitKeeps(s.limits, s.running, r);
    PermitParts(s.running, r);
    SettledOutcome(s, t, i, Granted);
    ServedOrder(s, t, i);
  }

  // ----- draining the queue

  /** The first waiter from `i` on that could be granted, or the length of the queue. */
  function FirstGrantable(s: State, i: nat): (k: nat)
    requires i <= |s.queue.waiting|
    ensures i <= k <= |s.queue.waiting|
    ensures forall j | i <= j < k :: !CanGrant(s.limits, s.running, s.queue.waiting[j].key)
    ensures k < |s.queue.waiting| ==> CanGrant(s.limits, s.running, s.queue.waiting[k].key)
    decreases |s.queue.waiting| - i
  {
    if i == |s.queue.waiting| || CanGrant(s.limits, s.running, s.queue.waiting[i].key) then i else FirstGrantable(s, i + 1)
  }

  function DrainedOnce(s: State, k: nat): State
    requires k < |s.queue.waiting|
  {
    if Aborted(s, s.queue.waiting[k]) then Rejects(s, k, Cancelled) else Grants(s, k)
  }

  /** `#drainQueue`. */
  function Drained(s: State): State
    decreases |s.queue.waiting|
  {
    var k := FirstGrantable(s, 0);
    if s.closed || k == |s.queue.waiting| then s else Drained(DrainedOnce(s, k))
  }

  lemma DrainedOnceKeeps(s: State, k: nat)
    requires Inv(s) && !s.closed && k < |s.queue.waiting| && k == FirstGrantable(s, 0)
    ensures Inv(DrainedOnce(s, k))
  {
    hide Inv;
    RejectsKeeps(s, k, Cancelled);
    GrantsKeeps(s, k);
  }

  /** What a request's outcome is never changes, and only the waiting lose their place. */
  ghost predicate Continues(s: State, t: State) {
    && s.limits == t.limits && s.next == t.next && s.aborted == t.aborted && s.closed == t.closed
    && (forall k | k in s.outcomes :: k in t.outcomes && t.outcomes[k] == s.outcomes[k])
    && (forall r | r in t.queue.waiting :: r in s.queue.waiting)
    && s.served <= t.served
    && (s.closed ==> t.served == s.served)
  }

  lemma OnceContinues(s: State, k: nat, code: Code)
    requires Inv(s) && k < |s.queue.waiting|
    ensures Continues(s, Rejects(s, k, code)) && (!s.closed ==> Continues(s, Grants(s, k)))
  {
    hide RunningOk, QueueOk, OrderOk, WithPermit;
  }

  lemma ContinuesOn(s: State, t: State, u: State)
    requires Continues(s, t) && Continues(t, u)
    ensures Continues(s, u)
  {}

  lemma Same(s: State)
    ensures Continues(s, s)
  {}

  lemma ClosedEmpty(s: State)
    requires Inv(s) && s.closed
    ensures s.queue.waiting == []
  {
    hide RunningOk, QueueOk, OutcomesOk, OrderOk;
  }

  lemma InvParts(s: State)
    requires Inv(s)
    ensures OutcomesOk(s) && OrderOk(s)
  {
    hide RunningOk, QueueOk, OutcomesOk, OrderOk;
  }

  lemma StillWaiting(s: State, t: State, r: Request)
    requires Continues(s, t) && r in t.queue.waiting
    ensures r in s.queue.waiting
  {}

  lemma {:induction false} DrainedKeeps(s: State)
    requires Inv(s)
    ensures Inv(Drained(s)) && Continues(s, Drained(s))
    ensures NoneGrantable(Drained(s))
    decreases |s.queue.waiting|
  {
    hide Inv, Continues, CanGrant, Rejects, Grants;
    var k := FirstGrantable(s, 0);
    Same(s);
    if s.closed {
      ClosedEmpty(s);
    } else if k < |s.queue.waiting| {
      var t := DrainedOnce(s, k);
      DrainedOnceKeeps(s, k);
      OnceContinues(s, k, Cancelled);
      Shorter(s, k);
      DrainedKeeps(t);
      ContinuesOn(s, t, Drained(t));
    }
  }

  lemma Shorter(s: State, k: nat)
    requires k < |s.queue.waiting|
    ensures |DrainedOnce(s, k).queue.waiting| < |s.queue.waiting|
  {}

  ghost predicate NoneGrantable(s: State) {
    forall i | 0 <= i < |s.queue.waiting| :: !CanGrant(s.limits, s.running, s.queue.waiting[i].key)
  }

  ghost predicate NoneAborted(s: State) {
    forall i | 0 <= i < |s.queue.waiting| :: !Aborted(s, s.queue.waiting[i])
  }

  lemma DrainedQuiet(s: State)
    requires Inv(s) && NoneAborted(s)
    ensures Inv(Drained(s)) && Quiet(Drained(s)) && Continues(s, Drained(s))
  {
    hide Inv, CanGrant;
    DrainedKeeps(s);
    var t := Drained(s);
    forall i | 0 <= i < |t.queue.waiting| ensures !Aborted(t, t.queue.waiting[i]) {
      assert t.queue.waiting[i] in s.queue.waiting;
    }
  }

  // ----- the events

  datatype Event =
    | Acquire(key: Key, isProject: bool, signal: Option<Signal>)
    | Timeout(ticket: nat)
    | Abort(aborting: Signal)
    | Release(ticket: nat)
    | Close

  /** A request settled on arrival. */
  function Answered(s: State, outcome: Outcome): State {
    s.(outcomes := s.outcomes[s.next := outcome], next := s.next + 1)
  }

  /** A request granted on arrival. */
  function GrantedAtOnce(s: State, r: Request): State {
    Answered(s, Granted).(running := WithPermit(s.running, r), served := s.served + [r])
  }

  /** `acquireGitChild`. */
  function Acquired(s: State, key: Key, isProject: bool, signal: Option<Signal>): State {
    var r := Request(s.next, key, signal);
    if s.closed then Answered(s, Rejected(Closed))
    else if !isProject then Answered(s, Rejected(InvalidProject))
    else if Aborted(s, r) then Answered(s, Rejected(Cancelled))
    else if CanGrant(s.limits, s.running, key) then GrantedAtOnce(s, r)
    else if !HasRoom(s.limits, s.queue, key) then Answered(s, Rejected(Busy))
    else Drained(s.(queue := Joined(s.queue, r), next := s.next + 1))
  }

  /** `#removeAndReject` on a ticket that may have left. */
  function Dismissed(s: State, ticket: nat, code: Code): State {
    var i := Position(s.queue.waiting, ticket);
    if i < |s.queue.waiting| then Rejects(s, i, code) else s
  }

  /** The abort listeners of the given waiters, one after the other; those no longer waiting have none. */
  function Listened(s: State, tickets: seq<nat>): State
    decreases |tickets|
  {
    if tickets == [] then s
    else
      var t := Listened(s, tickets[..|tickets| - 1]);
      var ticket := tickets[|tickets| - 1];
      if Position(t.queue.waiting, ticket) < |t.queue.waiting| then Drained(Dismissed(t, ticket, Cancelled)) else t
  }

  function Tickets(q: seq<Request>, signal: Signal): seq<nat> {
    if q == [] then []
    else Tickets(q[..|q| - 1], signal) + if q[|q| - 1].signal == Some(signal) then [q[|q| - 1].ticket] else []
  }

  function AllRejected(s: State): State
    decreases |s.queue.waiting|
  {
    if s.queue.waiting == [] then s else AllRejected(Rejects(s, 0, Closed))
  }

  function Step(s: State, e: Event): State {
    match e
    case Acquire(key, isProject, signal) => Acquired(s, key, isProject, signal)
    case Timeout(ticket) =>
      if Position(s.queue.waiting, ticket) < |s.queue.waiting| then Drained(Dismissed(s, ticket, Busy)) else s
    case Abort(signal) => Listened(s.(aborted := s.aborted + {signal}), Tickets(s.queue.waiting, signal))
    case Release(ticket) =>
      if ticket !in s.running.permits || s.running.permits[ticket].released then s
      else
        var t := s.(running := Released(s.running, ticket));
        if s.closed then t.(closeResolved := t.running.active.Total() == 0) else Drained(t)
    case Close =>
      if s.closed then s
      else AllRejected(s).(closed := true, closeResolved := s.running.active.Total() == 0)
  }

  // ----- every event keeps the invariant

  /** Arrivals whose queue is untouched. */
  lemma AnsweredKeeps(s: State, code: Code)
    requires Inv(s)
    ensures Inv(Answered(s, Rejected(code)))
  {
    hide RunningOk, QueueOk, InOrder;
    BelowMore(s);
  }

  lemma BelowMore(s: State)
    requires OutcomesOk(s) && OrderOk(s)
    ensures Below(s.served, s.next + 1) && Below(s.queue.waiting, s.next + 1) && s.next !in s.running.permits
    ensures forall i | 0 <= i < |s.queue.waiting| :: s.queue.waiting[i].ticket < s.next
  {}

  /** The fast path does not overtake: nobody with the same key is waiting. */
  lemma GrantedAtOnceKeeps(s: State, r: Request)
    requires Inv(s) && Quiet(s) && r.ticket == s.next && CanGrant(s.limits, s.running, r.key) && !s.closed
    ensures Inv(GrantedAtOnce(s, r)) && Quiet(GrantedAtOnce(s, r))
  {
    hide RunningOk, QueueOk;
    var t := GrantedAtOnce(s, r);
    BelowMore(s);
    PermitKeeps(s.limits, s.running, r);
    PermitParts(s.running, r);
    ArrivalOrder(s, r);
    forall i | 0 <= i < |t.queue.waiting| ensures !CanGrant(t.limits, t.running, t.queue.waiting[i].key) {
      Harder(s.limits, s.running, r, t.queue.waiting[i].key);
    }
    hide WithPermit, CanGrant, OrderOk;
    assert OutcomesOk(t);
  }

  lemma ArrivalOrder(s: State, r: Request)
    requires OutcomesOk(s) && OrderOk(s) && r.ticket == s.next
    requires forall i | 0 <= i < |s.queue.waiting| :: s.queue.waiting[i].key != r.key
    ensures OrderOk(GrantedAtOnce(s, r))
  {
    BelowMore(s);
    hide WithPermit;
  }

  lemma ProjectsOf(limits: Limits, s: Running)
    requires RunningOk(limits, s)
    ensures ProjectsOk(limits, s)
  {
    hide TotalsOk, ProjectsOk, KeysOk, PermitsOk;
  }

  /** One more running child never makes room. */
  lemma Harder(limits: Limits, s: Running, r: Request, key: Key)
    requires limits.Normalized() && RunningOk(limits, s) && !CanGrant(limits, s, key) && r.ticket !in s.permits
    ensures !CanGrant(limits, WithPermit(s, r), key)
  {
    hide RunningOk, WithPermit, ProjectCount, Tally;
    ProjectsOf(limits, s);
    PermitCounts(limits, s, r, key.project);
    PermitMore(s, r);
  }

  lemma PermitMore(s: Running, r: Request)
    ensures WithPermit(s, r).active == s.active.Plus(r.key.cls, 1)
    ensures forall p | p in s.activeByProject :: p in WithPermit(s, r).activeByProject
  {}

  lemma EnqueuedKeeps(s: State, r: Request)
    requires Inv(s) && r.ticket == s.next && HasRoom(s.limits, s.queue, r.key) && !s.closed
    ensures Inv(s.(queue := Joined(s.queue, r), next := s.next + 1))
  {
    hide RunningOk, QueueOk, HasRoom;
    BelowMore(s);
    JoinedKeeps(s.limits, s.queue, r);
  }

  /** What holds from one event to the next: promises settle once, grants only accumulate, none after closing. */
  ghost predicate Follows(s: State, t: State) {
    && s.limits == t.limits && s.next <= t.next && (s.closed ==> t.closed && t.served == s.served)
    && (forall k | k in s.outcomes :: k in t.outcomes && t.outcomes[k] == s.outcomes[k])
    && s.served <= t.served
  }

  lemma QueuedArrival(s: State, r: Request)
    requires Inv(s) && Quiet(s) && r.ticket == s.next && HasRoom(s.limits, s.queue, r.key) && !s.closed && !Aborted(s, r)
    ensures var t := Drained(s.(queue := Joined(s.queue, r), next := s.next + 1)); Inv(t) && Quiet(t) && Follows(s, t)
  {
    hide Inv, CanGrant, HasRoom, Drained;
    var u := s.(queue := Joined(s.queue, r), next := s.next + 1);
    EnqueuedKeeps(s, r);
    DrainedQuiet(u);
  }

  lemma AnsweredFollows(s: State, outcome: Outcome)
    requires OutcomesOk(s)
    ensures Follows(s, Answered(s, outcome)) && (Quiet(s) ==> Quiet(Answered(s, outcome)))
  {
    hide CanGrant;
  }

  lemma GrantedFollows(s: State, r: Request)
    requires OutcomesOk(s) && !s.closed
    ensures Follows(s, GrantedAtOnce(s, r))
  {
    hide WithPermit;
  }

  lemma AcquiredKeeps(s: State, key: Key, isProject: bool, signal: Option<Signal>)
    requires Inv(s) && Quiet(s)
    ensures var t := Acquired(s, key, isProject, signal); Inv(t) && Quiet(t) && Follows(s, t)
  {
    hide Inv, CanGrant, HasRoom, Joined, WithPermit, Drained, Quiet, Follows, Answered, GrantedAtOnce, Aborted, OutcomesOk;
    var r := Request(s.next, key, signal);
    InvParts(s);
    AnsweredKeeps(s, Closed);
    AnsweredKeeps(s, InvalidProject);
    AnsweredKeeps(s, Cancelled);
    AnsweredKeeps(s, Busy);
    AnsweredFollows(s, Rejected(Closed));
    AnsweredFollows(s, Rejected(InvalidProject));
    AnsweredFollows(s, Rejected(Cancelled));
    AnsweredFollows(s, Rejected(Busy));
    if !s.closed && isProject && !Aborted(s, r) {
      if CanGrant(s.limits, s.running, key) {
        GrantedAtOnceKeeps(s, r);
        GrantedFollows(s, r);
      } else if HasRoom(s.limits, s.queue, key) {
        QueuedArrival(s, r);
      }
    }
  }

  lemma DismissedKeeps(s: State, ticket: nat, code: Code)
    requires Inv(s)
    ensures Inv(Dismissed(s, ticket, code)) && Continues(s, Dismissed(s, ticket, code))
  {
    hide Inv, Rejects;
    var i := Position(s.queue.waiting, ticket);
    if i < |s.queue.waiting| {
      RejectsKeeps(s, i, code);
      OnceContinues(s, i, code);
    }
  }

  lemma TimeoutKeeps(s: State, ticket: nat)
    requires Inv(s) && Quiet(s)
    ensures var t := Step(s, Timeout(ticket)); Inv(t) && Quiet(t) && Follows(s, t)
  {
    hide Inv, CanGrant, Drained, Position;
    var d := Dismissed(s, ticket, Busy);
    DismissedKeeps(s, ticket, Busy);
    assert NoneAborted(d);
    DrainedQuiet(d);
  }

  lemma ReleasedKeys(s: Running, ticket: nat)
    requires ticket in s.permits
    ensures Released(s, ticket).permits.Keys == s.permits.Keys
  {}

  lemma ReleaseStep(s: State, ticket: nat)
    requires Inv(s) && Quiet(s) && ticket in s.running.permits && !s.running.permits[ticket].released
    ensures var t := s.(running := Released(s.running, ticket));
            && (!s.closed ==> Inv(t) && NoneAborted(t))
            && Inv(t.(closeResolved := s.closed && t.running.active.Total() == 0))
  {
    hide RunningOk, QueueOk, InOrder, CanGrant, Released;
    ReleaseKeeps(s.limits, s.running, ticket);
    ReleasedKeys(s.running, ticket);
  }

  lemma ReleaseEvent(s: State, ticket: nat)
    requires Inv(s) && Quiet(s)
    ensures var t := Step(s, Release(ticket)); Inv(t) && Quiet(t) && Follows(s, t)
  {
    hide CanGrant, Drained, RunningOk, QueueOk, OrderOk, OutcomesOk, Released;
    if ticket in s.running.permits && !s.running.permits[ticket].released {
      ReleaseStep(s, ticket);
      if !s.closed {
        DrainedQuiet(s.(running := Released(s.running, ticket)));
      }
    }
  }

  lemma {:induction false} AllRejectedKeeps(s: State)
    requires Inv(s)
    ensures var t := AllRejected(s);
            && Inv(t) && t.queue.waiting == [] && Continues(s, t) && t.served == s.served && t.running == s.running
            && t.closeResolved == s.closeResolved
    decreases |s.queue.waiting|
  {
    hide Inv;
    if s.queue.waiting != [] {
      RejectsKeeps(s, 0, Closed);
      OnceContinues(s, 0, Closed);
      AllRejectedKeeps(Rejects(s, 0, Closed));
      hide Rejects;
    }
  }

  lemma CloseEvent(s: State)
    requires Inv(s) && Quiet(s)
    ensures var t := Step(s, Close); Inv(t) && Quiet(t) && Follows(s, t)
  {
    hide RunningOk, QueueOk, InOrder, CanGrant, AllRejected;
    AllRejectedKeeps(s);
  }

  lemma {:induction false} TicketsComplete(q: seq<Request>, signal: Signal, i: nat)
    requires i < |q| && q[i].signal == Some(signal)
    ensures q[i].ticket in Tickets(q, signal)
  {
    if i < |q| - 1 {
      TicketsComplete(q[..|q| - 1], signal, i);
    }
  }

  /** After the listeners of a prefix ran, none of those tickets waits any more. */
  lemma {:induction false} ListenedKeeps(s: State, tickets: seq<nat>)
    requires Inv(s)
    requires NoneGrantable(s)
    ensures var t := Listened(s, tickets); Inv(t) && Continues(s, t) && NoneGrantable(t)
    ensures var t := Listened(s, tickets);
            forall i, j | 0 <= i < |tickets| && 0 <= j < |t.queue.waiting| :: t.queue.waiting[j].ticket != tickets[i]
    decreases |tickets|
  {
    hide Inv, Continues, CanGrant, Drained, Dismissed, Position, NoneGrantable;
    Same(s);
    if tickets != [] {
      var front, ticket := tickets[..|tickets| - 1], tickets[|tickets| - 1];
      var t := Listened(s, front);
      ListenedKeeps(s, front);
      if Position(t.queue.waiting, ticket) < |t.queue.waiting| {
        ListenerRuns(t, ticket);
        var u := Drained(Dismissed(t, ticket, Cancelled));
        ContinuesOn(s, t, u);
        forall i, j | 0 <= i < |tickets| && 0 <= j < |u.queue.waiting| ensures u.queue.waiting[j].ticket != tickets[i] {
          StillWaiting(t, u, u.queue.waiting[j]);
        }
      } else {
        assert forall j | 0 <= j < |t.queue.waiting| :: t.queue.waiting[j].ticket != ticket;
      }
    }
  }

  /** One listener: its waiter leaves, and the queue drains. */
  lemma ListenerRuns(t: State, ticket: nat)
    requires Inv(t) && Position(t.queue.waiting, ticket) < |t.queue.waiting|
    ensures var u := Drained(Dismissed(t, ticket, Cancelled));
            Inv(u) && Continues(t, u) && NoneGrantable(u) && forall r | r in u.queue.waiting :: r.ticket != ticket
  {
    hide Inv, CanGrant, Drained, Continues, Without;
    var d, i := Dismissed(t, ticket, Cancelled), Position(t.queue.waiting, ticket);
    DismissedKeeps(t, ticket, Cancelled);
    DrainedKeeps(d);
    ContinuesOn(t, d, Drained(d));
    InvParts(t);
    LeavingApart(t, i);
    WithoutAt(t.queue.waiting, i);
    LeftWaiting(t.queue, i);
    forall r | r in Drained(d).queue.waiting ensures r.ticket != ticket {
      StillWaiting(d, Drained(d), r);
    }
  }

  lemma AbortEvent(s: State, signal: Signal)
    requires Inv(s) && Quiet(s)
    ensures var t := Step(s, Abort(signal)); Inv(t) && Quiet(t) && Follows(s, t)
  {
    hide CanGrant, Listened, Tickets, RunningOk, QueueOk, InOrder;
    var u, tickets := s.(aborted := s.aborted + {signal}), Tickets(s.queue.waiting, signal);
    assert Inv(u) && NoneGrantable(u);
    ListenedKeeps(u, tickets);
    hide Inv;
    var t := Listened(u, tickets);
    forall i | 0 <= i < |t.queue.waiting| ensures !Aborted(t, t.queue.waiting[i]) {
      var r := t.queue.waiting[i];
      assert r in u.queue.waiting;
      var j :| 0 <= j < |s.queue.waiting| && s.queue.waiting[j] == r;
      if r.signal == Some(signal) {
        TicketsComplete(s.queue.waiting, signal, j);
      }
    }
  }

  /** Main step: after every event the invariant holds, nobody who could run is left waiting, promises settled
      before stay as they are, and after closing nothing more is granted. */
  lemma StepKeeps(s: State, e: Event)
    requires Inv(s) && Quiet(s)
    ensures var t := Step(s, e); Inv(t) && Quiet(t) && Follows(s, t)
  {
    match e
    case Acquire(key, isProject, signal) => AcquiredKeeps(s, key, isProject, signal);
    case Timeout(ticket) => TimeoutKeeps(s, ticket);
    case Abort(signal) => AbortEvent(s, signal);
    case Release(ticket) => ReleaseEvent(s, ticket);
    case Close => CloseEvent(s);
  }

  function Initial(limits: Limits): State {
    State(limits, Running(Counts(0, 0), map[], map[], map[], []), Queue(Counts(0, 0), map[], []), map[], {}, false, false,
          [], 0)
  }

  function Run(limits: Limits, events: seq<Event>): State {
    if events == [] then Initial(limits) else Step(Run(limits, events[..|events| - 1]), events[|events| - 1])
  }

  lemma InitialInv(limits: Limits)
    requires limits.Normalized()
    ensures Inv(Initial(limits)) && Quiet(Initial(limits))
  {
    hide RunningOk, QueueOk, Limits.Normalized;
    NothingYet(limits);
  }

  lemma NothingYet(limits: Limits)
    requires limits.Normalized()
    ensures RunningOk(limits, Initial(limits).running) && QueueOk(limits, Initial(limits).queue)
  {
    var s := Initial(limits);
    assert TotalsOk(limits, s.running) && ProjectsOk(limits, s.running) && PermitsOk(s.running);
    assert KeysOk(s.running);
  }

  /** Main result: the invariant after every run. */
  lemma {:induction false} AlwaysInv(limits: Limits, events: seq<Event>)
    requires limits.Normalized()
    ensures Inv(Run(limits, events)) && Quiet(Run(limits, events)) && Run(limits, events).limits == limits
    decreases |events|
  {
    hide Inv, Quiet, Step, Limits.Normalized;
    if events == [] {
      InitialInv(limits);
    } else {
      AlwaysInv(limits, events[..|events| - 1]);
      StepKeeps(Run(limits, events[..|events| - 1]), events[|events| - 1]);
    }
  }

  // ----- what callers rely on

  /** After any run: counters equal the live permits and waiters, no cap is exceeded, each live permit's count
      object is the project's own, and closing has resolved exactly when it was asked and no permit is live. */
  lemma Accounts(limits: Limits, events: seq<Event>)
    requires limits.Normalized()
    ensures var s := Run(limits, events); var live := s.running.live;
            && s.running.active == Tally(live, None) && |live| <= limits.maxChildren
            && Tally(live, None).read <= limits.maxActive.read && Tally(live, None).write <= limits.maxActive.write
            && (forall i | 0 <= i < |live| ::
                  && live[i].key.project in s.running.activeByProject && live[i].ticket in s.running.permits
                  && s.running.permits[live[i].ticket].count == s.running.activeByProject[live[i].key.project])
            && s.queue.queued == Tally(s.queue.waiting, None) && |s.queue.waiting| <= limits.queueMax
            && (s.closeResolved <==> s.closed && live == [])
    ensures forall p :: Tally(Run(limits, events).running.live, Some(p)).Total() <= limits.maxChildrenPerProject
  {
    hide Run, Tally, ProjectCount, OutcomesOk, OrderOk, ProjectsOk, KeysOk;
    AlwaysInv(limits, events);
    var s := Run(limits, events);
    TallyLength(s.running.live);
    forall p ensures Tally(s.running.live, Some(p)).Total() <= limits.maxChildrenPerProject {
      CountBounded(limits, s.running, p);
    }
  }

  lemma KeyAt(s: Running, p: Project)
    requires KeysOk(s)
    ensures ProjectCount(s, p) == Tally(s.live, Some(p))
  {
    hide ProjectCount, Tally;
  }

  lemma CountBounded(limits: Limits, s: Running, p: Project)
    requires limits.Normalized() && ProjectsOk(limits, s) && KeysOk(s)
    ensures Tally(s.live, Some(p)).Total() <= limits.maxChildrenPerProject
  {
    hide Tally, KeysOk;
    KeyAt(s, p);
    if p in s.activeByProject {
      assert Cell(limits, s, p);
    }
  }

  /** Over any run, requests with the same project and class are granted in the order they arrived. */
  lemma ArrivalOrderKept(limits: Limits, events: seq<Event>, i: nat, j: nat)
    requires limits.Normalized()
    requires var s := Run(limits, events); i < j < |s.served| && s.served[i].key == s.served[j].key
    ensures var s := Run(limits, events); s.served[i].ticket < s.served[j].ticket
  {
    AlwaysInv(limits, events);
    hide Run, RunningOk, QueueOk;
  }

  /** A write for a project with nothing running is granted at once when no write is running, however many reads
      are. */
  lemma IdleWriteAtOnce(limits: Limits, events: seq<Event>, p: Project, signal: Option<Signal>)
    requires limits.Normalized()
    requires var s := Run(limits, events);
             && !s.closed && s.running.active.write == 0 && !Aborted(s, Request(s.next, Key(p, Write), signal))
             && forall i | 0 <= i < |s.running.live| :: s.running.live[i].key.project != p
    ensures var s := Run(limits, events);
            Step(s, Acquire(Key(p, Write), true, signal)) == GrantedAtOnce(s, Request(s.next, Key(p, Write), signal))
  {
    hide Run, Tally, QueueOk, OrderOk, OutcomesOk, ProjectsOk, KeysOk, GrantedAtOnce, PermitsOk, Aborted, Quiet;
    AlwaysInv(limits, events);
    var s := Run(limits, events);
    IdleNotCounted(limits, s.running, p);
    TallyNatural(s.running.live, None);
  }

  lemma IdleNotCounted(limits: Limits, s: Running, p: Project)
    requires ProjectsOk(limits, s) && KeysOk(s) && forall i | 0 <= i < |s.live| :: s.live[i].key.project != p
    ensures p !in s.activeByProject
  {
    hide Tally, KeysOk;
    KeyAt(s, p);
    assert p in s.activeByProject ==> Cell(limits, s, p);
    Nobody(s.live, p);
  }

  lemma {:induction false} Nobody(s: seq<Request>, p: Project)
    requires forall i | 0 <= i < |s| :: s[i].key.project != p
    ensures Tally(s, Some(p)) == Counts(0, 0)
  {
    if s != [] {
      Nobody(s[..|s| - 1], p);
    }
  }

  // ----- who is granted, who waits, who is refused

  /** Room for one more running child of this key, counted on the live permits alone. */
  predicate Room(limits: Limits, live: seq<Request>, key: Key) {
    && |live| < limits.maxChildren
    && (if key.cls.Read? then Tally(live, None).read < limits.maxActive.read else Tally(live, None).write < limits.maxActive.write)
    && Tally(live, Some(key.project)).Total() < limits.maxChildrenPerProject
  }

  /** Room for one more waiter, counted on the waiters alone. */
  predicate QueueRoom(limits: Limits, waiting: seq<Request>, key: Key) {
    && |waiting| < limits.queueMax
    && (if key.cls.Read? then Tally(waiting, None).read < limits.maxQueued.read
        else Tally(waiting, None).write < limits.maxQueued.write)
    && Tally(waiting, Some(key.project)).Total() < limits.queueMaxPerProject
  }

  /** The check on the counters is the one on the permits. */
  lemma GrantMeansRoom(limits: Limits, s: Running, key: Key)
    requires limits.Normalized() && RunningOk(limits, s)
    ensures CanGrant(limits, s, key) <==> Room(limits, s.live, key)
  {
    hide Tally, PermitsOk;
    TallyLength(s.live);
    KeyAt(s, key.project);
    if key.project in s.activeByProject {
      CellAt(limits, s, key.project);
    }
    hide KeysOk, ProjectsOk;
  }

  lemma QueueMeansRoom(limits: Limits, q: Queue, key: Key)
    requires limits.Normalized() && QueueOk(limits, q)
    ensures HasRoom(limits, q, key) <==> QueueRoom(limits, q.waiting, key)
  {
    hide Tally;
    TallyNatural(q.waiting, Some(key.project));
  }

  /** What an arriving request meets, in every run: it is granted at once exactly when the admission is open, the
      request valid and there is room; queued exactly when there is no room to run but room to wait; and otherwise
      refused with the reason, changing nothing else. */
  lemma ArrivalDecided(limits: Limits, events: seq<Event>, key: Key, isProject: bool, signal: Option<Signal>)
    requires limits.Normalized()
    ensures var s := Run(limits, events); var r := Request(s.next, key, signal);
            var t := Step(s, Acquire(key, isProject, signal));
            var admissible := !s.closed && isProject && !Aborted(s, r);
            var room, queueRoom := Room(limits, s.running.live, key), QueueRoom(limits, s.queue.waiting, key);
            && (admissible && room ==>
                  t.outcomes == s.outcomes[r.ticket := Granted] && t.running.live == s.running.live + [r] && t.queue == s.queue)
            && (admissible && !room && queueRoom ==>
                  t.outcomes == s.outcomes && t.running == s.running && t.queue.waiting == s.queue.waiting + [r])
            && (!admissible || (!room && !queueRoom) ==>
                  t == Answered(s, Rejected(if s.closed then Closed else if !isProject then InvalidProject
                                            else if Aborted(s, r) then Cancelled else Busy)))
  {
    hide Run, Tally, OutcomesOk, OrderOk, WithPermit, Room, QueueRoom, CanGrant, HasRoom, Aborted, RunningOk, QueueOk;
    AlwaysInv(limits, events);
    var s := Run(limits, events);
    GrantMeansRoom(limits, s.running, key);
    QueueMeansRoom(limits, s.queue, key);
    PermitParts(s.running, Request(s.next, key, signal));
    if !CanGrant(limits, s.running, key) {
      NothingToDrain(s, Request(s.next, key, signal));
    }
  }

  lemma NothingToDrain(s: State, r: Request)
    requires Quiet(s) && !CanGrant(s.limits, s.running, r.key)
    ensures var u := s.(queue := Joined(s.queue, r), next := s.next + 1);
            Drained(u) == u && u.queue.waiting == s.queue.waiting + [r]
  {
    hide CanGrant;
  }

  /** In every run, nobody waits for whom there is room. */
  lemma WaitersHaveNoRoom(limits: Limits, events: seq<Event>, i: nat)
    requires limits.Normalized() && i < |Run(limits, events).queue.waiting|
    ensures var s := Run(limits, events); !Room(limits, s.running.live, s.queue.waiting[i].key)
  {
    hide Run, Room, CanGrant, RunningOk, QueueOk, OutcomesOk, OrderOk;
    AlwaysInv(limits, events);
    GrantMeansRoom(limits, Run(limits, events).running, Run(limits, events).queue.waiting[i].key);
  }

  /** Draining settles every waiter it takes out: cancelled when its caller has aborted, and otherwise granted and
      running. */
  ghost predicate Settles(s: State, t: State) {
    && s.running.live <= t.running.live
    && forall r | r in s.queue.waiting ::
         || r in t.queue.waiting
         || (r.ticket in t.outcomes
             && if Aborted(s, r) then t.outcomes[r.ticket] == Rejected(Cancelled)
                else t.outcomes[r.ticket] == Granted && r in t.running.live)
  }

  lemma SettlesOn(s: State, t: State, u: State)
    requires Settles(s, t) && Settles(t, u) && Continues(s, t) && Continues(t, u)
    ensures Settles(s, u)
  {}

  lemma OnceSettles(s: State, k: nat)
    requires k < |s.queue.waiting|
    ensures Settles(s, DrainedOnce(s, k))
  {
    var t, w := DrainedOnce(s, k), s.queue.waiting[k];
    LeftWaiting(s.queue, k);
    PermitParts(s.running, w);
    hide WithPermit, Left, Without;
    forall r | r in s.queue.waiting && r != w ensures r in t.queue.waiting {
      KeptWithout(s.queue.waiting, k, r);
    }
  }

  lemma KeptWithout(q: seq<Request>, k: nat, r: Request)
    requires k < |q| && r in q && r != q[k]
    ensures r in Without(q, k)
  {
    var j :| 0 <= j < |q| && q[j] == r;
    assert Without(q, k)[if j < k then j else j - 1] == r;
  }

  lemma {:induction false} DrainedSettles(s: State)
    requires Inv(s)
    ensures Settles(s, Drained(s))
    decreases |s.queue.waiting|
  {
    hide Inv, Continues, CanGrant, Rejects, Grants, FirstGrantable, Settles, DrainedOnce;
    var k := FirstGrantable(s, 0);
    if s.closed || k == |s.queue.waiting| {
      SameSettles(s);
    } else {
      var t := DrainedOnce(s, k);
      DrainedOnceKeeps(s, k);
      OnceGoesOn(s, k);
      Shorter(s, k);
      OnceSettles(s, k);
      DrainedSettles(t);
      DrainedKeeps(t);
      SettlesOn(s, t, Drained(t));
    }
  }

  lemma OnceGoesOn(s: State, k: nat)
    requires Inv(s) && !s.closed && k < |s.queue.waiting|
    ensures Continues(s, DrainedOnce(s, k))
  {
    hide Inv, Continues;
    OnceContinues(s, k, Cancelled);
  }

  lemma SameSettles(s: State)
    ensures Settles(s, s)
  {}

  /** A first release frees exactly its own slot; whoever leaves the queue for it is granted. Any other release
      changes nothing. */
  lemma ReleaseFrees(limits: Limits, events: seq<Event>, ticket: nat)
    requires limits.Normalized()
    ensures var s := Run(limits, events); var t := Step(s, Release(ticket));
            var freed := WithoutTicket(s.running.live, ticket);
            && (Has(s.running.live, ticket) ==>
                  && |freed| == |s.running.live| - 1 && !Has(freed, ticket) && freed <= t.running.live
                  && (s.closed ==> t.running.live == freed)
                  && (forall r | r in s.queue.waiting :: r in t.queue.waiting || r in t.running.live))
            && (!Has(s.running.live, ticket) ==> t == s)
  {
    hide Run, Tally, QueueOk, InOrder, Drained, WithoutTicket, Released, Settles, Has, TotalsOk, ProjectsOk, KeysOk, CanGrant, PermitsOk;
    AlwaysInv(limits, events);
    var s := Run(limits, events);
    LivePermit(s.running, ticket);
    if Has(s.running.live, ticket) {
      var u := s.(running := Released(s.running, ticket));
      FreedOne(s.running, ticket);
      ReleaseStep(s, ticket);
      if !s.closed {
        DrainedSettles(u);
        SettledAll(u, Drained(u));
      } else {
        NobodyWaits(s);
      }
    }
  }

  lemma NobodyWaits(s: State)
    requires Inv(s) && s.closed
    ensures s.queue.waiting == []
  {
    ClosedEmpty(s);
  }

  lemma SettledAll(u: State, t: State)
    requires Settles(u, t) && NoneAborted(u)
    ensures u.running.live <= t.running.live && forall r | r in u.queue.waiting :: r in t.queue.waiting || r in t.running.live
  {
    forall r | r in u.queue.waiting ensures r in t.queue.waiting || r in t.running.live {
      var i :| 0 <= i < |u.queue.waiting| && u.queue.waiting[i] == r;
      assert !Aborted(u, u.queue.waiting[i]);
    }
  }

  lemma LivePermit(s: Running, ticket: nat)
    requires PermitsOk(s)
    ensures Has(s.live, ticket) <==> ticket in s.permits && !s.permits[ticket].released
  {}

  lemma TicketsDiffer(s: Running)
    requires PermitsOk(s)
    ensures forall i, j | 0 <= i < j < |s.live| :: s.live[i].ticket != s.live[j].ticket
  {}

  lemma LastOfIt(live: seq<Request>, i: nat)
    requires i < |live| && forall i, j | 0 <= i < j < |live| :: live[i].ticket != live[j].ticket
    ensures !Has(Without(live, i), live[i].ticket)
  {
    WithoutAt(live, i);
    hide Without;
  }

  lemma FreedOne(s: Running, ticket: nat)
    requires PermitsOk(s) && Has(s.live, ticket)
    ensures var freed := WithoutTicket(s.live, ticket);
            Released(s, ticket).live == freed && |freed| == |s.live| - 1 && !Has(freed, ticket)
    ensures ticket in s.permits && !s.permits[ticket].released
  {
    hide PermitsOk, Has, Without;
    LivePermit(s, ticket);
    LivePosition(s, ticket);
    TicketsDiffer(s);
    var i := Position(s.live, ticket);
    LastOfIt(s.live, i);
    WithoutAt(s.live, i);
  }

  /** A queue timeout takes its waiter out as busy; nobody else leaves the queue but by being granted. */
  lemma TimeoutDismisses(limits: Limits, events: seq<Event>, r: Request)
    requires limits.Normalized() && r in Run(limits, events).queue.waiting
    ensures var s := Run(limits, events); var t := Step(s, Timeout(r.ticket));
            && r !in t.queue.waiting && r.ticket in t.outcomes && t.outcomes[r.ticket] == Rejected(Busy)
            && (forall x | x in s.queue.waiting && x != r :: x in t.queue.waiting || x in t.running.live)
            && s.running.live <= t.running.live
  {
    hide Run, RunningOk, QueueOk, OutcomesOk, OrderOk, Drained, Settles, CanGrant, Left, Without, Position;
    AlwaysInv(limits, events);
    var s := Run(limits, events);
    var i := WaitsAt(s, r);
    var d := Rejects(s, i, Busy);
    LeftWaiting(s.queue, i);
    DismissedKeeps(s, r.ticket, Busy);
    DrainedSettles(d);
    DrainedKeeps(d);
    Gone(s, i);
    StillNoneAborted(s, i, Busy);
    SettledAll(d, Drained(d));
    forall x | x in s.queue.waiting && x != r ensures x in d.queue.waiting {
      KeptWithout(s.queue.waiting, i, x);
    }
    if r in Drained(d).queue.waiting {
      StillWaiting(d, Drained(d), r);
    }
  }

  lemma StillNoneAborted(s: State, i: nat, code: Code)
    requires Quiet(s) && i < |s.queue.waiting|
    ensures NoneAborted(Rejects(s, i, code))
  {
    hide CanGrant;
    LeftWaiting(s.queue, i);
    WithoutAt(s.queue.waiting, i);
    hide Left, Without;
  }

  /** A waiter is found at its own position. */
  lemma WaitsAt(s: State, r: Request) returns (i: nat)
    requires Inv(s) && r in s.queue.waiting
    ensures i == Position(s.queue.waiting, r.ticket) < |s.queue.waiting| && s.queue.waiting[i] == r
  {
    hide RunningOk, QueueOk;
    var j :| 0 <= j < |s.queue.waiting| && s.queue.waiting[j] == r;
    i := Position(s.queue.waiting, r.ticket);
    LeavingApart(s, j);
  }

  lemma Gone(s: State, i: nat)
    requires Inv(s) && i < |s.queue.waiting|
    ensures s.queue.waiting[i] !in Without(s.queue.waiting, i)
    ensures forall x | x in Without(s.queue.waiting, i) :: x in s.queue.waiting
  {
    hide RunningOk, QueueOk;
    LeavingApart(s, i);
    WithoutAt(s.queue.waiting, i);
    hide Without;
  }

  /** Closing rejects every waiter as closed and touches no permit. */
  lemma {:induction false} ClosingRejects(s: State, r: Request)
    requires Inv(s) && r in s.queue.waiting
    ensures var t := AllRejected(s); r.ticket in t.outcomes && t.outcomes[r.ticket] == Rejected(Closed) && t.running == s.running
    decreases |s.queue.waiting|
  {
    hide Inv, Continues, Left;
    var t := Rejects(s, 0, Closed);
    RejectsKeeps(s, 0, Closed);
    LeftWaiting(s.queue, 0);
    AllRejectedKeeps(t);
    if r != s.queue.waiting[0] {
      KeptWithout(s.queue.waiting, 0, r);
      WithoutAt(s.queue.waiting, 0);
      ClosingRejects(t, r);
    } else {
      Sticks(t, AllRejected(t), r.ticket);
    }
  }

  lemma Sticks(s: State, t: State, ticket: nat)
    requires Continues(s, t) && ticket in s.outcomes
    ensures ticket in t.outcomes && t.outcomes[ticket] == s.outcomes[ticket]
  {}

  lemma CloseRejects(limits: Limits, events: seq<Event>, r: Request)
    requires limits.Normalized() && r in Run(limits, events).queue.waiting
    ensures var s := Run(limits, events); var t := Step(s, Close);
            && t.closed && t.queue.waiting == [] && t.running == s.running
            && r.ticket in t.outcomes && t.outcomes[r.ticket] == Rejected(Closed)
  {
    hide Run, Inv, AllRejected;
    AlwaysInv(limits, events);
    var s := Run(limits, events);
    if s.closed { ClosedEmpty(s); }
    ClosingRejects(s, r);
    AllRejectedKeeps(s);
  }

  /** An abort cancels every waiter of its signal; nobody else leaves the queue but by being granted. */
  lemma AbortCancels(limits: Limits, events: seq<Event>, signal: Signal, r: Request)
    requires limits.Normalized() && r in Run(limits, events).queue.waiting
    ensures var s := Run(limits, events); var t := Step(s, Abort(signal));
            if r.signal == Some(signal)
            then r !in t.queue.waiting && r.ticket in t.outcomes && t.outcomes[r.ticket] == Rejected(Cancelled)
            else r in t.queue.waiting || r in t.running.live
  {
    hide Run, RunningOk, QueueOk, InOrder, Listened, Tickets, CanGrant, Settles;
    AlwaysInv(limits, events);
    var s := Run(limits, events);
    var u, tickets := s.(aborted := s.aborted + {signal}), Tickets(s.queue.waiting, signal);
    AbortedInv(s, signal);
    ListenedKeeps(u, tickets);
    TicketsOnly(s.queue.waiting, signal);
    forall x | x in tickets ensures WaitsAborted(u, x) {
      var k :| 0 <= k < |s.queue.waiting| && s.queue.waiting[k].ticket == x && s.queue.waiting[k].signal == Some(signal);
      assert Aborted(u, u.queue.waiting[k]);
    }
    ListenedSettles(u, tickets);
    var i :| 0 <= i < |s.queue.waiting| && s.queue.waiting[i] == r;
    assert Aborted(u, r) <==> r.signal == Some(signal);
    AbortEvent(s, signal);
    SettledOne(u, Listened(u, tickets), r);
  }

  lemma SettledOne(s: State, t: State, r: Request)
    requires Settles(s, t) && r in s.queue.waiting && NoneAborted(t) && t.aborted == s.aborted
    ensures if Aborted(s, r) then r !in t.queue.waiting && r.ticket in t.outcomes && t.outcomes[r.ticket] == Rejected(Cancelled)
            else r in t.queue.waiting || r in t.running.live
  {
    if r in t.queue.waiting {
      var i :| 0 <= i < |t.queue.waiting| && t.queue.waiting[i] == r;
      assert !Aborted(t, t.queue.waiting[i]);
    }
  }

  /** The listeners called are those of the signal. */
  lemma {:induction false} TicketsOnly(q: seq<Request>, signal: Signal)
    ensures forall x | x in Tickets(q, signal) :: exists i :: 0 <= i < |q| && q[i].ticket == x && q[i].signal == Some(signal)
  {
    if q != [] {
      var front := q[..|q| - 1];
      TicketsOnly(front, signal);
      forall x | x in Tickets(q, signal) ensures exists i :: 0 <= i < |q| && q[i].ticket == x && q[i].signal == Some(signal) {
        if x in Tickets(front, signal) {
          var i :| 0 <= i < |front| && front[i].ticket == x && front[i].signal == Some(signal);
          assert q[i].ticket == x;
        } else {
          assert q[|q| - 1].ticket == x;
        }
      }
    }
  }

  ghost predicate WaitsAborted(s: State, ticket: nat) {
    exists i :: 0 <= i < |s.queue.waiting| && s.queue.waiting[i].ticket == ticket && Aborted(s, s.queue.waiting[i])
  }

  lemma {:induction false} ListenedSettles(s: State, tickets: seq<nat>)
    requires Inv(s) && NoneGrantable(s)
    requires forall x | x in tickets :: WaitsAborted(s, x)
    ensures Settles(s, Listened(s, tickets))
    decreases |tickets|
  {
    hide Inv, Continues, CanGrant, Drained, Dismissed, Position, NoneGrantable, Settles, WaitsAborted;
    if tickets == [] {
      SameSettles(s);
    } else {
      var front, ticket := tickets[..|tickets| - 1], tickets[|tickets| - 1];
      var t := Listened(s, front);
      ListenedKeeps(s, front);
      assert forall x | x in front :: x in tickets;
      ListenedSettles(s, front);
      if Position(t.queue.waiting, ticket) < |t.queue.waiting| {
        assert ticket in tickets;
        ListenerSettles(s, t, ticket);
        ListenerRuns(t, ticket);
        SettlesOn(s, t, Drained(Dismissed(t, ticket, Cancelled)));
      }
    }
  }

  lemma ListenerSettles(s: State, t: State, ticket: nat)
    requires Inv(s) && Inv(t) && Continues(s, t) && Position(t.queue.waiting, ticket) < |t.queue.waiting|
    requires WaitsAborted(s, ticket)
    ensures Settles(t, Drained(Dismissed(t, ticket, Cancelled)))
  {
    hide RunningOk, QueueOk, OutcomesOk, OrderOk, CanGrant, Drained, Left, Without, Settles;
    var i := Position(t.queue.waiting, ticket);
    var w, d := t.queue.waiting[i], Dismissed(t, ticket, Cancelled);
    SameWaiter(s, t, i);
    LeftWaiting(t.queue, i);
    DismissedKeeps(t, ticket, Cancelled);
    CancelSettles(t, i);
    DrainedSettles(d);
    DrainedKeeps(d);
    SettlesOn(t, d, Drained(d));
  }

  lemma CancelSettles(t: State, i: nat)
    requires i < |t.queue.waiting| && Aborted(t, t.queue.waiting[i])
    ensures Settles(t, Rejects(t, i, Cancelled))
  {
    LeftWaiting(t.queue, i);
    hide Left, Without;
    forall r | r in t.queue.waiting && r != t.queue.waiting[i] ensures r in Rejects(t, i, Cancelled).queue.waiting {
      KeptWithout(t.queue.waiting, i, r);
    }
  }

  /** A ticket names one waiter, before and after. */
  lemma SameWaiter(s: State, t: State, i: nat)
    requires Inv(s) && Continues(s, t) && i < |t.queue.waiting|
    requires WaitsAborted(s, t.queue.waiting[i].ticket)
    ensures Aborted(t, t.queue.waiting[i])
  {
    hide RunningOk, QueueOk;
    var k :| 0 <= k < |s.queue.waiting| && s.queue.waiting[k].ticket == t.queue.waiting[i].ticket && Aborted(s, s.queue.waiting[k]);
    LeavingApart(s, k);
    assert t.queue.waiting[i] in s.queue.waiting;
  }

  // ----- the class as the source writes it

  class ResourceAdmission {
    const limits: Limits
    var active: Counts
    var activeByProject: map<Project, Address>
    var memory: map<Address, Counts>
    var permits: map<nat, Permit>
    var queued: Counts
    var queuedByProject: map<Project, int>
    var queue: seq<Request>
    var outcomes: map<nat, Outcome>
    var aborted: set<Signal>
    var closed: bool
    var closeResolved: bool
    var next: nat
    ghost var live: seq<Request>
    ghost var served: seq<Request>

    ghost function Now(): State
      reads this
    {
      State(limits, Running(active, activeByProject, memory, permits, live), Queue(queued, queuedByProject, queue), outcomes,
            aborted, closed, closeResolved, served, next)
    }

    ghost predicate Valid()
      reads this
    {
      Inv(Now()) && Quiet(Now())
    }

    constructor (limits: Limits)
      requires limits.Normalized()
      ensures Valid() && Now() == Initial(limits)
    {
      hide Inv, Quiet;
      this.limits := limits;
      active, queued, activeByProject, memory, queuedByProject := Counts(0, 0), Counts(0, 0), map[], map[], map[];
      permits, outcomes, queue, aborted, next, live, served := map[], map[], [], {}, 0, [], [];
      closed, closeResolved := false, false;
      new;
      assert Now() == Initial(limits);
      InitialInv(limits);
    }

    predicate MayGrant(key: Key)
      reads this
      ensures MayGrant(key) == CanGrant(limits, Now().running, key)
    {
      && active.Total() < limits.maxChildren && active.Of(key.cls) < limits.maxActive.Of(key.cls)
      && (key.project !in activeByProject
          || Lookup(activeByProject, memory, key.project).Total() < limits.maxChildrenPerProject)
    }

    /** Counts one more running child, in the project's shared count object. */
    method CountChild(r: Request)
      modifies this`active, this`activeByProject, this`memory, this`permits, this`live
      ensures Now().running == WithPermit(old(Now()).running, r)
    {
      hide Lookup, Counts.Plus;
      var known := r.key.project in activeByProject;
      var count := if known then activeByProject[r.key.project] else r.ticket;
      var projectCount := Lookup(activeByProject, memory, r.key.project).Plus(r.key.cls, 1);
      active := active.Plus(r.key.cls, 1);
      activeByProject := activeByProject[r.key.project := count];
      memory := memory[count := projectCount];
      permits := permits[r.ticket := Permit(r.key, count, false)];
      live := live + [r];
    }

    method CreatePermit(r: Request)
      requires r.ticket !in outcomes
      modifies this`active, this`activeByProject, this`memory, this`permits, this`live, this`served, this`outcomes
      ensures Now() == old(Now()).(running := WithPermit(old(Now()).running, r), outcomes := old(outcomes)[r.ticket := Granted],
                                   served := old(served) + [r])
    {
      hide WithPermit;
      CountChild(r);
      outcomes := outcomes[r.ticket := Granted];
      served := served + [r];
    }

    /** Takes the waiter at `i` out of the queue. */
    method SettleWaiter(i: nat)
      requires i < |queue|
      modifies this`queue, this`queued, this`queuedByProject
      ensures Now() == old(Now()).(queue := Left(old(Now()).queue, i))
    {
      var waiter := queue[i];
      queue := queue[..i] + queue[i + 1..];
      queued := queued.Plus(waiter.key.cls, -1);
      var count := (if waiter.key.project in queuedByProject then queuedByProject[waiter.key.project] else 1) - 1;
      if count == 0 {
        queuedByProject := queuedByProject - {waiter.key.project};
      } else {
        queuedByProject := queuedByProject[waiter.key.project := count];
      }
    }

    method FindGrantable() returns (k: nat)
      ensures k == FirstGrantable(Now(), 0)
    {
      hide CanGrant;
      k := 0;
      while k < |queue| && !MayGrant(queue[k].key)
        invariant 0 <= k <= |queue| && FirstGrantable(Now(), 0) == FirstGrantable(Now(), k)
      {
        k := k + 1;
      }
    }

    /** The waiter at `k` leaves: cancelled if its caller has aborted, granted otherwise. */
    method DrainOne(k: nat)
      requires k < |queue| && queue[k].ticket !in outcomes
      modifies this
      ensures Now() == DrainedOnce(old(Now()), k)
    {
      hide WithPermit, Left;
      var waiter := queue[k];
      SettleWaiter(k);
      if waiter.signal.Some? && waiter.signal.value in aborted {
        outcomes := outcomes[waiter.ticket := Rejected(Cancelled)];
      } else {
        CreatePermit(waiter);
      }
    }

    method DrainQueue()
      requires Inv(Now())
      modifies this
      ensures Now() == Drained(old(Now()))
    {
      hide Inv, CanGrant, DrainedOnce, FirstGrantable;
      if closed {
        return;
      }
      while active.Total() < limits.maxChildren
        invariant Inv(Now()) && !closed && Drained(Now()) == Drained(old(Now()))
        decreases |queue|
      {
        var k := FindGrantable();
        if k == |queue| {
          return;
        }
        DrainedOnceKeeps(Now(), k);
        Shorter(Now(), k);
        StillUnsettled(Now(), k);
        DrainOne(k);
      }
      FullUp(Now());
    }

    method AcquireGitChild(key: Key, isProject: bool, signal: Option<Signal>) returns (ticket: nat)
      requires Valid()
      modifies this
      ensures Valid() && ticket == old(next) && Now() == Step(old(Now()), Acquire(key, isProject, signal))
    {
      hide Inv, Quiet, CanGrant, WithPermit, Drained;
      AcquiredKeeps(Now(), key, isProject, signal);
      FreshTicket(Now());
      ticket := next;
      next := next + 1;
      if closed {
        outcomes := outcomes[ticket := Rejected(Closed)];
      } else if !isProject {
        outcomes := outcomes[ticket := Rejected(InvalidProject)];
      } else if signal.Some? && signal.value in aborted {
        outcomes := outcomes[ticket := Rejected(Cancelled)];
      } else if MayGrant(key) {
        CreatePermit(Request(ticket, key, signal));
      } else {
        Enqueue(Request(ticket, key, signal));
      }
    }

    /** Queues a request that cannot run yet, when there is room. */
    method Enqueue(r: Request)
      requires Inv(Now().(next := r.ticket)) && r.ticket + 1 == next && !closed && !Aborted(Now(), r)
      modifies this
      ensures var was := old(Now());
              Now() == if HasRoom(limits, was.queue, r.key) then Drained(was.(queue := Joined(was.queue, r)))
                       else was.(outcomes := old(outcomes)[r.ticket := Rejected(Busy)])
    {
      hide Inv, Drained;
      ghost var was := Now();
      var projectCount := if r.key.project in queuedByProject then queuedByProject[r.key.project] else 0;
      if |queue| >= limits.queueMax || queued.Of(r.key.cls) >= limits.maxQueued.Of(r.key.cls)
         || projectCount >= limits.queueMaxPerProject {
        outcomes := outcomes[r.ticket := Rejected(Busy)];
      } else {
        EnqueuedKeeps(was.(next := r.ticket), r);
        queue := queue + [r];
        queued := queued.Plus(r.key.cls, 1);
        queuedByProject := queuedByProject[r.key.project := projectCount + 1];
        assert Now() == was.(queue := Joined(was.queue, r));
        DrainQueue();
      }
    }

    /** A waiter leaves with an error, if it still waits. */
    method RemoveAndReject(ticket: nat, code: Code) returns (waited: bool)
      modifies this`queue, this`queued, this`queuedByProject, this`outcomes
      ensures waited == (Position(old(queue), ticket) < |old(queue)|) && Now() == Dismissed(old(Now()), ticket, code)
    {
      hide Left;
      var i := Position(queue, ticket);
      waited := i < |queue|;
      if waited {
        SettleWaiter(i);
        outcomes := outcomes[ticket := Rejected(code)];
      }
    }

    /** The queue timer of one request fires; it is cleared once the request has left the queue. */
    method FireTimeout(ticket: nat)
      requires Valid()
      modifies this
      ensures Valid() && Now() == Step(old(Now()), Timeout(ticket))
    {
      hide Inv, Quiet, Drained, Dismissed;
      ghost var was := Now();
      TimeoutKeeps(Now(), ticket);
      DismissedKeeps(Now(), ticket, Busy);
      var waited := RemoveAndReject(ticket, Busy);
      if waited {
        DrainQueue();
      } else {
        DismissedNobody(was, ticket, Busy);
      }
    }

    /** A caller aborts: the listeners of its waiters run one after the other. */
    method FireAbort(signal: Signal)
      requires Valid()
      modifies this
      ensures Valid() && Now() == Step(old(Now()), Abort(signal))
    {
      hide Inv, Quiet, Drained, Dismissed, Tickets, NoneGrantable, CanGrant;
      AbortEvent(Now(), signal);
      AbortedInv(Now(), signal);
      aborted := aborted + {signal};
      var tickets := Tickets(queue, signal);
      ghost var was := Now();
      var i := 0;
      while i < |tickets|
        invariant 0 <= i <= |tickets| && Now() == Listened(was, tickets[..i])
      {
        ListenedKeeps(was, tickets[..i]);
        DismissedKeeps(Now(), tickets[i], Cancelled);
        ListenedMore(was, tickets, i);
        var waited := RemoveAndReject(tickets[i], Cancelled);
        if waited {
          DrainQueue();
        }
        i := i + 1;
      }
      assert tickets[..i] == tickets;
    }

    /** A permit's `release`, which does nothing the second time. */
    method Release(ticket: nat)
      requires Valid()
      modifies this
      ensures Valid() && Now() == Step(old(Now()), Event.Release(ticket))
    {
      hide Inv, Quiet, Drained, Released;
      ReleaseEvent(Now(), ticket);
      if ticket !in permits || permits[ticket].released {
        return;
      }
      ReleaseStep(Now(), ticket);
      Uncount(ticket);
      if closed {
        closeResolved := active.Total() == 0;
      } else {
        DrainQueue();
      }
    }

    method Uncount(ticket: nat)
      requires ticket in permits
      modifies this`active, this`activeByProject, this`memory, this`permits, this`live
      ensures Now() == old(Now()).(running := Released(old(Now()).running, ticket))
    {
      hide Counts.Plus, Counts.Total, WithoutTicket;
      var permit := permits[ticket];
      var count := (if permit.count in memory then memory[permit.count] else Counts(0, 0)).Plus(permit.key.cls, -1);
      permits := permits[ticket := permit.(released := true)];
      active := active.Plus(permit.key.cls, -1);
      memory := memory[permit.count := count];
      if count.Total() == 0 {
        activeByProject := activeByProject - {permit.key.project};
      }
      live := WithoutTicket(live, ticket);
    }

    method Close()
      requires Valid()
      modifies this
      ensures Valid() && Now() == Step(old(Now()), Event.Close)
    {
      hide Inv, Quiet, AllRejected, Left;
      CloseEvent(Now());
      if closed {
        return;
      }
      ghost var was := Now();
      AllRejectedKeeps(was);
      RejectAll();
      closed := true;
      closeResolved := active.Total() == 0;
    }

    method RejectAll()
      modifies this`queue, this`queued, this`queuedByProject, this`outcomes
      ensures Now() == AllRejected(old(Now()))
    {
      hide Left;
      while queue != []
        invariant AllRejected(Now()) == AllRejected(old(Now()))
        decreases |queue|
      {
        ghost var was := Now();
        var ticket := queue[0].ticket;
        LeftWaiting(was.queue, 0);
        SettleWaiter(0);
        outcomes := outcomes[ticket := Rejected(Closed)];
        assert Now() == Rejects(was, 0, Closed);
      }
    }
  }

  lemma DismissedNobody(s: State, ticket: nat, code: Code)
    requires Position(s.queue.waiting, ticket) == |s.queue.waiting|
    ensures Dismissed(s, ticket, code) == s
  {}

  lemma FreshTicket(s: State)
    requires Inv(s)
    ensures s.next !in s.outcomes
  {
    hide RunningOk, QueueOk, OrderOk;
  }

  lemma ListenedMore(s: State, tickets: seq<nat>, i: nat)
    requires i < |tickets|
    ensures var t, d := Listened(s, tickets[..i]), Dismissed(Listened(s, tickets[..i]), tickets[i], Cancelled);
            Listened(s, tickets[..i + 1]) == if Position(t.queue.waiting, tickets[i]) < |t.queue.waiting| then Drained(d) else d
  {
    hide Drained;
    assert tickets[..i + 1][..i] == tickets[..i];
  }

  lemma AbortedInv(s: State, signal: Signal)
    requires Inv(s) && Quiet(s)
    ensures Inv(s.(aborted := s.aborted + {signal})) && NoneGrantable(s.(aborted := s.aborted + {signal}))
  {
    hide RunningOk, QueueOk, InOrder, CanGrant;
  }

  lemma StillUnsettled(s: State, k: nat)
    requires Inv(s) && k < |s.queue.waiting|
    ensures s.queue.waiting[k].ticket !in s.outcomes && (!s.closed ==> !DrainedOnce(s, k).closed)
    ensures DrainedOnce(s, k).limits == s.limits
  {
    hide RunningOk, QueueOk, OrderOk;
  }

  lemma FullUp(s: State)
    requires s.running.active.Total() >= s.limits.maxChildren
    ensures Drained(s) == s
  {}
}
