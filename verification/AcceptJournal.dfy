/** The accept journal of one project: prepared, result-persisted, main-updated, completed, or recovery-required.
    Every operation is one transaction: it succeeds as a whole or changes nothing. */
module AcceptJournal {
  import opened Common

  type Oid = nat

  type Operation = nat

  // ----- stored rows

  datatype Relation = Relation(id: nat, ticket: nat, ticketRevision: int, commit: Oid, resolves: bool)

  /** A canonical plan: relations in order of their ids, relation and ticket ids unique. */
  datatype Plan = Plan(operation: Operation, merge: bool, actor: nat, requestMember: nat, request: nat, key: nat,
                       fingerprint: nat, requestRevision: int, expectedMain: Oid, expectedHead: Oid, placement: nat,
                       preparedAt: int, relations: seq<Relation>, commit: nat)

  predicate Canonical(p: Plan) {
    && (forall i, j | 0 <= i < j < |p.relations| :: p.relations[i].id < p.relations[j].id)
    && (forall i, j | 0 <= i < j < |p.relations| :: p.relations[i].ticket != p.relations[j].ticket)
  }

  datatype Active = Prepared | ResultPersisted | MainUpdated

  datatype Phase = In(active: Active) | Completed | RecoveryRequired(from: Active)

  datatype Journal = Journal(plan: Plan, phase: Phase, result: Option<Oid>, updatedAt: int)

  datatype Candidate = Candidate(operation: Operation, scheduledAt: int, createdAt: int)

  datatype Service = Serving | NeedsRecovery | Otherwise

  datatype Project = Project(main: Oid, service: Service, placement: nat, catalogued: bool)

  datatype RelationRow = RelationRow(ticket: nat, commit: Oid, resolves: bool, accepted: Option<Oid>)

  datatype Status = Open | Merged(oid: Oid) | Withdrawn

  datatype Request = Request(member: nat, head: Oid, revision: int, status: Status, updatedAt: int,
                             relations: map<nat, RelationRow>)

  datatype Ticket = Ticket(open: bool, revision: int, closedBy: Option<nat>)

  /** `revisions` are the ticket revisions shown with the relations. */
  datatype Response = Response(main: Oid, request: nat, member: nat, head: Oid, revision: int, updatedAt: int,
                               relations: map<nat, RelationRow>, revisions: map<nat, int>)

  datatype Identity = Identity(member: nat, key: nat)

  datatype Stored = Stored(fingerprint: nat, response: Response)

  datatype MainUpdatedEvent = MainUpdatedEvent(main: Oid, request: nat, at: int)

  datatype Db = Db(journals: map<Operation, Journal>, candidate: Option<Candidate>, project: Project,
                   requests: map<nat, Request>, tickets: map<nat, Ticket>, responses: map<Identity, Stored>,
                   events: seq<MainUpdatedEvent>)

  // ----- the operations

  datatype Result<T> = Ok(db: Db, value: T) | Conflict

  datatype Advance = Created | Replayed | Advanced

  /** `#scheduleRecovery`: one candidate per project; another operation's candidate is a conflict. */
  function Scheduled(db: Db, op: Operation, at: int, createdAt: int): Option<Db> {
    if at < createdAt then None
    else match db.candidate
      case None => Some(db.(candidate := Some(Candidate(op, at, createdAt))))
      case Some(c) => if c.operation == op && c.createdAt <= at then Some(db.(candidate := Some(c.(scheduledAt := at)))) else None
  }

  function Scheduling<T>(db: Db, op: Operation, at: int, createdAt: int, value: T): Result<T> {
    match Scheduled(db, op, at, createdAt)
    case None => Conflict
    case Some(scheduled) => Ok(scheduled, value)
  }

  /** The candidate of an operation goes; another's stays. */
  function Unscheduled(db: Db, op: Operation): Db {
    if db.candidate.Some? && db.candidate.value.operation == op then db.(candidate := None) else db
  }

  predicate RelationsLive(db: Db, p: Plan, r: Request) {
    && |r.relations| == |p.relations|
    && (forall i | 0 <= i < |p.relations| ::
          var planned := p.relations[i];
          && planned.id in r.relations
          && r.relations[planned.id] == RelationRow(planned.ticket, planned.commit, planned.resolves, None)
          && planned.ticket in db.tickets && db.tickets[planned.ticket].revision == planned.ticketRevision)
  }

  /** The fences checked again at preparation and at completion. */
  predicate Fenced(db: Db, p: Plan) {
    && db.project.service.Serving? && db.project.main == p.expectedMain && db.project.placement == p.placement
    && p.request in db.requests
    && (var r := db.requests[p.request];
        && r.status.Open? && r.member == p.requestMember && r.head == p.expectedHead && r.revision == p.requestRevision
        && RelationsLive(db, p, r))
  }

  predicate Nonterminal(db: Db) {
    exists op :: op in db.journals && !db.journals[op].phase.Completed?
  }

  predicate KeyTaken(db: Db, p: Plan) {
    exists op :: op in db.journals && db.journals[op].plan.actor == p.actor && db.journals[op].plan.key == p.key
  }

  function Prepare(db: Db, p: Plan): Result<Advance> {
    if !Canonical(p) then Conflict
    else if p.operation in db.journals then
      var existing := db.journals[p.operation];
      if existing.plan != p then Conflict
      else if existing.phase.In? then Scheduling(db, p.operation, existing.updatedAt, p.preparedAt, Replayed)
      else Ok(db, Replayed)
    else if Nonterminal(db) || !Fenced(db, p) || KeyTaken(db, p) then Conflict
    else Scheduling(db.(journals := db.journals[p.operation := Journal(p, In(Prepared), None, p.preparedAt)]),
                    p.operation, p.preparedAt, p.preparedAt, Created)
  }

  function PersistResult(db: Db, op: Operation, expected: Active, result: Oid, at: int): Result<Advance> {
    if op !in db.journals then Conflict
    else
      var j := db.journals[op];
      if !j.plan.merge && result != j.plan.expectedMain then Conflict
      else if j.phase == In(ResultPersisted) && j.result == Some(result) && j.updatedAt == at
      then Scheduling(db, op, at, j.plan.preparedAt, Replayed)
      else if j.phase != In(expected) || at < j.updatedAt || expected != Prepared || j.result.Some? then Conflict
      else Scheduling(db.(journals := db.journals[op := Journal(j.plan, In(ResultPersisted), Some(result), at)]),
                      op, at, j.plan.preparedAt, Advanced)
  }

  function MarkMainUpdated(db: Db, op: Operation, expected: Active, at: int): Result<Advance> {
    if op !in db.journals then Conflict
    else
      var j := db.journals[op];
      if j.phase == In(MainUpdated) && j.updatedAt == at then Scheduling(db, op, at, j.plan.preparedAt, Replayed)
      else if j.phase != In(expected) || j.result.None? || at < j.updatedAt || expected != ResultPersisted then Conflict
      else Scheduling(db.(journals := db.journals[op := Journal(j.plan, In(MainUpdated), j.result, at)]),
                      op, at, j.plan.preparedAt, Advanced)
  }

  function MarkRecoveryRequired(db: Db, op: Operation, expected: Active, at: int): Result<Advance> {
    if op !in db.journals then Conflict
    else
      var j := db.journals[op];
      var replay := j.phase == RecoveryRequired(expected) && j.updatedAt == at;
      if !replay && (j.phase != In(expected) || at < j.updatedAt) then Conflict
      else if db.project.service.Otherwise? then Conflict
      else
        var journals := if replay then db.journals
                        else db.journals[op := Journal(j.plan, RecoveryRequired(expected), j.result, at)];
        Ok(Unscheduled(db.(journals := journals,
                           project := db.project.(service := NeedsRecovery, catalogued := false)), op),
           if replay then Replayed else Advanced)
  }

  function Identify(p: Plan): Identity { Identity(p.actor, p.key) }

  /** The journal's relations accepted. */
  function Accepted(p: Plan, result: Oid, rows: map<nat, RelationRow>): map<nat, RelationRow> {
    map id | id in rows :: if Lists(p, id) then rows[id].(accepted := Some(result)) else rows[id]
  }

  predicate Lists(p: Plan, id: nat) { exists i :: 0 <= i < |p.relations| && p.relations[i].id == id }

  predicate Closes(p: Plan, ticket: nat) {
    exists i :: 0 <= i < |p.relations| && p.relations[i].resolves && p.relations[i].ticket == ticket
  }

  /** Every ticket to resolve is open at the planned revision. */
  predicate Closable(db: Db, p: Plan) {
    forall i | 0 <= i < |p.relations| && p.relations[i].resolves ::
      p.relations[i].ticket in db.tickets && db.tickets[p.relations[i].ticket].open
      && db.tickets[p.relations[i].ticket].revision == p.relations[i].ticketRevision
  }

  function Closed(p: Plan, tickets: map<nat, Ticket>): map<nat, Ticket> {
    map t | t in tickets ::
      if Closes(p, t) then Ticket(false, tickets[t].revision + 1, Some(p.actor)) else tickets[t]
  }

  function MergedRequest(p: Plan, r: Request, result: Oid, at: int): Request {
    r.(status := Merged(result), updatedAt := at, relations := Accepted(p, result, r.relations))
  }

  function ResponseOf(p: Plan, r: Request, tickets: map<nat, Ticket>, result: Oid): Response {
    Response(result, p.request, r.member, r.head, r.revision, r.updatedAt, r.relations,
             map id | id in r.relations && r.relations[id].ticket in tickets :: tickets[r.relations[id].ticket].revision)
  }

  /** What is stored under an identity already must be the same response to the same request. */
  predicate Storable(db: Db, id: Identity, stored: Stored) { id !in db.responses || db.responses[id] == stored }

  predicate Matches(response: Response, j: Journal, at: int) {
    && j.result == Some(response.main) && response.request == j.plan.request && response.member == j.plan.requestMember
    && response.head == j.plan.expectedHead && response.revision == j.plan.requestRevision && response.updatedAt == at
    && |response.relations| == |j.plan.relations|
    && (forall i | 0 <= i < |j.plan.relations| ::
          var planned := j.plan.relations[i];
          && planned.id in response.relations
          && response.relations[planned.id] == RelationRow(planned.ticket, planned.commit, planned.resolves, j.result)
          && planned.id in response.revisions
          && response.revisions[planned.id] == planned.ticketRevision + if planned.resolves then 1 else 0)
  }

  function Complete(db: Db, op: Operation, at: int): Result<Response> {
    if op !in db.journals then Conflict
    else
      var j := db.journals[op];
      var id := Identify(j.plan);
      if j.phase.Completed? then
        if id in db.responses && db.responses[id].fingerprint == j.plan.fingerprint
           && Matches(db.responses[id].response, j, j.updatedAt)
        then Ok(db, db.responses[id].response) else Conflict
      else if j.phase != In(MainUpdated) || j.result.None? || at < j.updatedAt || !Fenced(db, j.plan) || !Closable(db, j.plan)
      then Conflict
      else
        var result := j.result.value;
        var merged := MergedRequest(j.plan, db.requests[j.plan.request], result, at);
        var response := ResponseOf(j.plan, merged, Closed(j.plan, db.tickets), result);
        if !Matches(response, j, at) || !Storable(db, id, Stored(j.plan.fingerprint, response)) then Conflict
        else Ok(Unscheduled(db.(requests := db.requests[j.plan.request := merged], tickets := Closed(j.plan, db.tickets),
                                project := db.project.(main := result),
                                responses := db.responses[id := Stored(j.plan.fingerprint, response)],
                                events := db.events + [MainUpdatedEvent(result, j.plan.request, at)],
                                journals := db.journals[op := Journal(j.plan, Completed, j.result, at)]), op),
                response)
  }

  // ----- runs

  datatype Call =
    | Preparing(plan: Plan)
    | Persisting(operation: Operation, expected: Active, result: Oid, at: int)
    | Marking(operation: Operation, expected: Active, at: int)
    | Recovering(operation: Operation, expected: Active, at: int)
    | Completing(operation: Operation, at: int)
    | Elsewhere(requests: map<nat, Request>, tickets: map<nat, Ticket>, service: Service, placement: nat, catalogued: bool)

  /** `accepted` lists the completed operations in the order they completed. */
  datatype State = State(db: Db, initialMain: Oid, accepted: seq<Operation>)

  function After<T>(s: State, r: Result<T>): State { if r.Ok? then s.(db := r.db) else s }

  /** Any call in any order and any number of times, with anything happening elsewhere in the project between. */
  function Step(s: State, c: Call): State {
    match c
    case Preparing(plan) => After(s, Prepare(s.db, plan))
    case Persisting(op, expected, result, at) => After(s, PersistResult(s.db, op, expected, result, at))
    case Marking(op, expected, at) => After(s, MarkMainUpdated(s.db, op, expected, at))
    case Recovering(op, expected, at) => After(s, MarkRecoveryRequired(s.db, op, expected, at))
    case Completing(op, at) =>
      var r := Complete(s.db, op, at);
      if r.Ok? && !s.db.journals[op].phase.Completed? then s.(db := r.db, accepted := s.accepted + [op]) else s
    case Elsewhere(requests, tickets, service, placement, catalogued) =>
      s.(db := s.db.(requests := requests, tickets := tickets,
                     project := s.db.project.(service := service, placement := placement, catalogued := catalogued)))
  }

  function Initial(project: Project): State {
    State(Db(map[], None, project, map[], map[], map[], []), project.main, [])
  }

  function Run(project: Project, calls: seq<Call>): State {
    if calls == [] then Initial(project) else Step(Run(project, calls[..|calls| - 1]), calls[|calls| - 1])
  }

  // ----- the invariant

  predicate HasResult(phase: Phase) {
    match phase
    case In(active) => !active.Prepared?
    case Completed => true
    case RecoveryRequired(from) => !from.Prepared?
  }

  ghost predicate JournalOk(op: Operation, j: Journal) {
    && j.plan.operation == op && Canonical(j.plan) && j.plan.preparedAt <= j.updatedAt
    && (j.result.Some? <==> HasResult(j.phase))
    && (j.result.Some? && !j.plan.merge ==> j.result.value == j.plan.expectedMain)
  }

  ghost predicate JournalsOk(journals: map<Operation, Journal>) {
    forall op | op in journals :: JournalOk(op, journals[op])
  }

  /** At most one journal has not completed. */
  ghost predicate OneOpen(journals: map<Operation, Journal>) {
    forall a, b | a in journals && b in journals && !journals[a].phase.Completed? && !journals[b].phase.Completed? :: a == b
  }

  ghost predicate KeysUnique(journals: map<Operation, Journal>) {
    forall a, b | a in journals && b in journals && Identify(journals[a].plan) == Identify(journals[b].plan) :: a == b
  }

  /** A recovery candidate exists exactly while some journal is in an active phase, and names it. */
  ghost predicate CandidateOk(journals: map<Operation, Journal>, candidate: Option<Candidate>) {
    && (forall op | op in journals && journals[op].phase.In? :: candidate.Some? && candidate.value.operation == op)
    && (candidate.Some? ==>
          var op := candidate.value.operation;
          op in journals && journals[op].phase.In? && candidate.value.createdAt == journals[op].plan.preparedAt)
  }

  function MainBefore(s: State, i: nat): Option<Oid>
    requires i <= |s.accepted|
  {
    if i == 0 then Some(s.initialMain)
    else if s.accepted[i - 1] in s.db.journals then s.db.journals[s.accepted[i - 1]].result else None
  }

  /** The completed accepts form a chain, with exactly one event each, and the project is at its end. */
  ghost predicate ChainOk(s: State) {
    && |s.db.events| == |s.accepted| && MainBefore(s, |s.accepted|) == Some(s.db.project.main)
    && (forall i | 0 <= i < |s.accepted| :: LinkOk(s, i))
    && (forall i, j | 0 <= i < j < |s.accepted| :: s.accepted[i] != s.accepted[j])
    && (forall op | op in s.db.journals && s.db.journals[op].phase.Completed? :: op in s.accepted)
  }

  ghost predicate LinkOk(s: State, i: nat)
    requires i < |s.accepted| == |s.db.events|
  {
    var op := s.accepted[i];
    op in s.db.journals
    && var j := s.db.journals[op];
    j.phase.Completed? && j.result.Some? && MainBefore(s, i) == Some(j.plan.expectedMain)
    && s.db.events[i] == MainUpdatedEvent(j.result.value, j.plan.request, j.updatedAt)
  }

  ghost predicate ResponseKept(db: Db, op: Operation)
    requires op in db.journals
  {
    var j := db.journals[op]; var id := Identify(j.plan);
    id in db.responses && db.responses[id].fingerprint == j.plan.fingerprint
    && Matches(db.responses[id].response, j, j.updatedAt)
  }

  ghost predicate ResponsesOk(db: Db) {
    forall op | op in db.journals && db.journals[op].phase.Completed? :: ResponseKept(db, op)
  }

  ghost predicate Inv(s: State) {
    && JournalsOk(s.db.journals) && OneOpen(s.db.journals) && KeysUnique(s.db.journals)
    && CandidateOk(s.db.journals, s.db.candidate) && ChainOk(s) && ResponsesOk(s.db)
  }

  lemma InvParts(s: State)
    requires Inv(s)
    ensures JournalsOk(s.db.journals) && OneOpen(s.db.journals) && KeysUnique(s.db.journals)
  {
    hide JournalsOk, OneOpen, KeysUnique;
  }

  lemma JournalKept(s: State, op: Operation)
    requires Inv(s) && op in s.db.journals
    ensures JournalOk(op, s.db.journals[op])
  {
    hide JournalOk, OneOpen, KeysUnique, CandidateOk, ChainOk, ResponsesOk;
  }

  lemma FencedMain(db: Db, p: Plan)
    requires Fenced(db, p)
    ensures db.project.main == p.expectedMain && p.request in db.requests
  {}

  lemma MatchesDone(response: Response, was: Journal, j: Journal, at: int)
    requires Matches(response, was, at) && j.plan == was.plan && j.result == was.result
    ensures Matches(response, j, at)
  {}

  /** The operation leaves the active phases, and its candidate goes with it. */
  lemma CandidateGone(journals: map<Operation, Journal>, candidate: Option<Candidate>, op: Operation, j: Journal)
    requires CandidateOk(journals, candidate) && OneOpen(journals)
    requires op in journals && !journals[op].phase.Completed? && j.phase.RecoveryRequired?
    ensures CandidateOk(journals[op := j], if candidate.Some? && candidate.value.operation == op then None else candidate)
  {}

  // ----- what one journal's change keeps

  /** Replacing an open journal by its next stage, same plan. */
  ghost predicate Advances(was: Journal, j: Journal) {
    !was.phase.Completed? && j.plan == was.plan
  }

  lemma AdvancedKeeps(journals: map<Operation, Journal>, op: Operation, j: Journal)
    requires JournalsOk(journals) && OneOpen(journals) && KeysUnique(journals)
    requires op in journals && Advances(journals[op], j) && JournalOk(op, j)
    ensures var more := journals[op := j]; JournalsOk(more) && OneOpen(more) && KeysUnique(more)
  {}

  /** An open journal moved on without completing: accepts, events and responses stay in step. */
  lemma OpenApart(s: State, t: State, op: Operation)
    requires ChainOk(s) && ResponsesOk(s.db) && op in s.db.journals && !s.db.journals[op].phase.Completed?
    requires op in t.db.journals && t.db.journals == s.db.journals[op := t.db.journals[op]] && !t.db.journals[op].phase.Completed?
    requires t.accepted == s.accepted && t.initialMain == s.initialMain && t.db.events == s.db.events
    requires t.db.project.main == s.db.project.main && t.db.responses == s.db.responses
    ensures ChainOk(t) && ResponsesOk(t.db)
  {
    hide Matches;
    forall i | 0 <= i < |s.accepted| ensures s.accepted[i] != op {
      assert LinkOk(s, i);
    }
    forall i | 0 <= i <= |t.accepted| ensures MainBefore(t, i) == MainBefore(s, i) {}
    forall i | 0 <= i < |t.accepted| ensures LinkOk(t, i) {
      assert LinkOk(s, i);
    }
    forall k | k in t.db.journals && t.db.journals[k].phase.Completed? ensures ResponseKept(t.db, k) {
      assert ResponseKept(s.db, k);
    }
  }

  /** Rescheduling never meets another operation's candidate. */
  lemma ScheduledKeeps(journals: map<Operation, Journal>, candidate: Option<Candidate>, op: Operation, j: Journal)
    requires CandidateOk(journals, candidate) && JournalsOk(journals) && op in journals && journals[op].phase.In?
    requires j.phase.In? && j.plan == journals[op].plan
    ensures candidate.Some? && candidate.value.operation == op && candidate.value.createdAt == j.plan.preparedAt
    ensures forall at :: CandidateOk(journals[op := j], Some(candidate.value.(scheduledAt := at)))
  {}

  /** An active journal changed within the active phases. */
  lemma ActiveKeeps(s: State, op: Operation, j: Journal, at: int)
    requires Inv(s) && op in s.db.journals && s.db.journals[op].phase.In? && j.phase.In? && j.plan == s.db.journals[op].plan
    requires JournalOk(op, j) && j.plan.preparedAt <= at
    ensures var db := s.db.(journals := s.db.journals[op := j]);
            Scheduled(db, op, at, j.plan.preparedAt).Some? && Inv(s.(db := Scheduled(db, op, at, j.plan.preparedAt).value))
  {
    hide JournalsOk, OneOpen, KeysUnique, JournalOk, ChainOk, ResponsesOk;
    var db := s.db.(journals := s.db.journals[op := j]);
    AdvancedKeeps(s.db.journals, op, j);
    ScheduledKeeps(s.db.journals, s.db.candidate, op, j);
    hide CandidateOk;
    OpenApart(s, s.(db := Scheduled(db, op, at, j.plan.preparedAt).value), op);
  }

  lemma SameJournal(journals: map<Operation, Journal>, op: Operation)
    requires op in journals
    ensures journals[op := journals[op]] == journals
  {}

  lemma PersistKeeps(s: State, op: Operation, expected: Active, result: Oid, at: int)
    requires Inv(s)
    ensures Inv(After(s, PersistResult(s.db, op, expected, result, at)))
  {
    hide Inv, Scheduled, JournalsOk;
    if op in s.db.journals {
      var j := s.db.journals[op];
      JournalKept(s, op);
      SameJournal(s.db.journals, op);
      if PersistResult(s.db, op, expected, result, at).Ok? {
        var next := if j.phase == In(ResultPersisted) then j else Journal(j.plan, In(ResultPersisted), Some(result), at);
        ActiveKeeps(s, op, next, at);
      }
    }
  }

  lemma MarkKeeps(s: State, op: Operation, expected: Active, at: int)
    requires Inv(s)
    ensures Inv(After(s, MarkMainUpdated(s.db, op, expected, at)))
  {
    hide Inv, Scheduled, JournalsOk;
    if op in s.db.journals {
      var j := s.db.journals[op];
      JournalKept(s, op);
      SameJournal(s.db.journals, op);
      if MarkMainUpdated(s.db, op, expected, at).Ok? {
        var next := if j.phase == In(MainUpdated) then j else Journal(j.plan, In(MainUpdated), j.result, at);
        ActiveKeeps(s, op, next, at);
      }
    }
  }

  lemma PrepareKeeps(s: State, p: Plan)
    requires Inv(s)
    ensures Inv(After(s, Prepare(s.db, p)))
  {
    hide Inv, Scheduled, JournalsOk, Fenced, Nonterminal, KeyTaken, Canonical;
    if Prepare(s.db, p).Ok? {
      if p.operation in s.db.journals {
        var j := s.db.journals[p.operation];
        JournalKept(s, p.operation);
        SameJournal(s.db.journals, p.operation);
        if j.phase.In? {
          ActiveKeeps(s, p.operation, j, j.updatedAt);
        }
      } else {
        FirstPrepared(s, p);
      }
    }
  }

  /** A new journal, when none is open and its identity is new. */
  lemma FirstPrepared(s: State, p: Plan)
    requires Inv(s) && p.operation !in s.db.journals && !Nonterminal(s.db) && !KeyTaken(s.db, p) && Canonical(p)
    ensures var db := s.db.(journals := s.db.journals[p.operation := Journal(p, In(Prepared), None, p.preparedAt)]);
            var r := Scheduled(db, p.operation, p.preparedAt, p.preparedAt);
            r.Some? && Inv(s.(db := r.value))
  {
    hide ChainOk, ResponsesOk, JournalsOk, KeysUnique;
    var op, j := p.operation, Journal(p, In(Prepared), None, p.preparedAt);
    NoCandidate(s.db);
    InsertedJournals(s.db, p);
    InsertedApart(s, op, j);
    ChainKeptElsewhere(s.(db := s.db.(journals := s.db.journals[op := j])), s.(db := s.db.(journals := s.db.journals[op := j], candidate := Some(Candidate(op, p.preparedAt, p.preparedAt)))));
  }

  lemma NoCandidate(db: Db)
    requires CandidateOk(db.journals, db.candidate) && !Nonterminal(db)
    ensures db.candidate.None?
  {}

  lemma InsertedJournals(db: Db, p: Plan)
    requires JournalsOk(db.journals) && KeysUnique(db.journals) && p.operation !in db.journals && Canonical(p)
    requires !Nonterminal(db) && !KeyTaken(db, p)
    ensures var more := db.journals[p.operation := Journal(p, In(Prepared), None, p.preparedAt)];
            JournalsOk(more) && OneOpen(more) && KeysUnique(more)
  {}

  lemma InsertedApart(s: State, op: Operation, j: Journal)
    requires ChainOk(s) && ResponsesOk(s.db) && op !in s.db.journals && !j.phase.Completed?
    ensures var t := s.(db := s.db.(journals := s.db.journals[op := j])); ChainOk(t) && ResponsesOk(t.db)
  {
    hide Matches;
    var t := s.(db := s.db.(journals := s.db.journals[op := j]));
    forall i | 0 <= i < |s.accepted| ensures s.accepted[i] != op {
      assert LinkOk(s, i);
    }
    forall i | 0 <= i <= |t.accepted| ensures MainBefore(t, i) == MainBefore(s, i) {}
    forall i | 0 <= i < |t.accepted| ensures LinkOk(t, i) {
      assert LinkOk(s, i);
    }
    forall k | k in t.db.journals && t.db.journals[k].phase.Completed? ensures ResponseKept(t.db, k) {
      assert ResponseKept(s.db, k);
    }
  }

  /** The chain and the responses look only at journals, events, responses and main. */
  lemma ChainKeptElsewhere(s: State, t: State)
    requires ChainOk(s) && ResponsesOk(s.db)
    requires t.accepted == s.accepted && t.initialMain == s.initialMain && t.db.journals == s.db.journals
    requires t.db.events == s.db.events && t.db.responses == s.db.responses && t.db.project.main == s.db.project.main
    ensures ChainOk(t) && ResponsesOk(t.db)
  {
    hide Matches;
    forall i | 0 <= i <= |t.accepted| ensures MainBefore(t, i) == MainBefore(s, i) {}
    forall i | 0 <= i < |t.accepted| ensures LinkOk(t, i) {
      assert LinkOk(s, i);
    }
    forall k | k in t.db.journals && t.db.journals[k].phase.Completed? ensures ResponseKept(t.db, k) {
      assert ResponseKept(s.db, k);
    }
  }

  lemma RecoverKeeps(s: State, op: Operation, expected: Active, at: int)
    requires Inv(s)
    ensures Inv(After(s, MarkRecoveryRequired(s.db, op, expected, at)))
  {
    hide ChainOk, ResponsesOk, JournalsOk, KeysUnique, OneOpen, Canonical;
    var r := MarkRecoveryRequired(s.db, op, expected, at);
    if r.Ok? {
      var j := s.db.journals[op];
      JournalKept(s, op);
      var next := if j.phase == RecoveryRequired(expected) then j else Journal(j.plan, RecoveryRequired(expected), j.result, at);
      assert r.db.journals == s.db.journals[op := next];
      AdvancedKeeps(s.db.journals, op, next);
      OpenApart(s, After(s, r), op);
      CandidateGone(s.db.journals, s.db.candidate, op, next);
    }
  }

  // ----- completing

  /** The operation joins the chain. */
  lemma ChainLonger(s: State, t: State, op: Operation, at: int)
    requires ChainOk(s) && op in s.db.journals && !s.db.journals[op].phase.Completed? && s.db.journals[op].result.Some?
    requires s.db.project.main == s.db.journals[op].plan.expectedMain
    requires var j := s.db.journals[op];
             && t.db.journals == s.db.journals[op := Journal(j.plan, Completed, j.result, at)]
             && t.accepted == s.accepted + [op] && t.initialMain == s.initialMain
             && t.db.events == s.db.events + [MainUpdatedEvent(j.result.value, j.plan.request, at)]
             && t.db.project.main == j.result.value
    ensures ChainOk(t)
  {
    var n := |s.accepted|;
    forall i | 0 <= i < n ensures s.accepted[i] != op {
      assert LinkOk(s, i);
    }
    forall i | 0 <= i <= n ensures MainBefore(t, i) == MainBefore(s, i) {}
    forall i | 0 <= i < |t.accepted| ensures LinkOk(t, i) {
      if i < n {
        assert LinkOk(s, i);
      }
    }
    assert t.accepted[n] == op;
  }

  lemma ResponsesMore(db: Db, t: Db, op: Operation, response: Response, at: int)
    requires ResponsesOk(db) && KeysUnique(db.journals) && op in db.journals && !db.journals[op].phase.Completed?
    requires var j := db.journals[op]; var done := Journal(j.plan, Completed, j.result, at);
             && t.journals == db.journals[op := done]
             && t.responses == db.responses[Identify(j.plan) := Stored(j.plan.fingerprint, response)]
             && Matches(response, j, at)
    ensures ResponsesOk(t)
  {
    forall k | k in t.journals && t.journals[k].phase.Completed? ensures ResponseKept(t, k) {
      if k != op {
        assert ResponseKept(db, k);
        assert Identify(db.journals[k].plan) != Identify(db.journals[op].plan);
      } else {
        assert Matches(response, t.journals[op], at);
      }
    }
  }

  lemma CompletedJournals(journals: map<Operation, Journal>, candidate: Option<Candidate>, op: Operation, at: int)
    requires JournalsOk(journals) && OneOpen(journals) && KeysUnique(journals) && CandidateOk(journals, candidate)
    requires op in journals && journals[op].phase == In(MainUpdated) && journals[op].updatedAt <= at
    ensures var more := journals[op := Journal(journals[op].plan, Completed, journals[op].result, at)];
            && JournalsOk(more) && OneOpen(more) && KeysUnique(more) && CandidateOk(more, None)
            && candidate.Some? && candidate.value.operation == op
  {
    hide Canonical;
    assert JournalOk(op, journals[op]);
  }

  lemma CompleteKeeps(s: State, op: Operation, at: int)
    requires Inv(s)
    ensures Inv(Step(s, Completing(op, at)))
  {
    hide ChainOk, ResponsesOk, JournalsOk, KeysUnique, OneOpen, CandidateOk, Matches, Fenced, Closable, MergedRequest,
         ResponseOf, Storable, Closed;
    var r := Complete(s.db, op, at);
    if r.Ok? && !s.db.journals[op].phase.Completed? {
      CompletedJournals(s.db.journals, s.db.candidate, op, at);
      var t := Step(s, Completing(op, at));
      FencedMain(s.db, s.db.journals[op].plan);
      ChainLonger(s, t, op, at);
      ResponsesMore(s.db, t.db, op, r.value, at);
    }
  }

  lemma ElsewhereKeeps(s: State, c: Call)
    requires Inv(s) && c.Elsewhere?
    ensures Inv(Step(s, c))
  {
    hide ChainOk, ResponsesOk, JournalsOk, KeysUnique, OneOpen, CandidateOk;
    ChainKeptElsewhere(s, Step(s, c));
  }

  lemma StepKeeps(s: State, c: Call)
    requires Inv(s)
    ensures Inv(Step(s, c))
  {
    hide Inv, After, Prepare, PersistResult, MarkMainUpdated, MarkRecoveryRequired, Complete;
    match c
    case Preparing(plan) => PrepareKeeps(s, plan);
    case Persisting(op, expected, result, at) => PersistKeeps(s, op, expected, result, at);
    case Marking(op, expected, at) => MarkKeeps(s, op, expected, at);
    case Recovering(op, expected, at) => RecoverKeeps(s, op, expected, at);
    case Completing(op, at) => CompleteKeeps(s, op, at);
    case Elsewhere(_, _, _, _, _) => ElsewhereKeeps(s, c);
  }

  lemma InitialInv(project: Project)
    ensures Inv(Initial(project))
  {}

  /** Main result: the invariant after any sequence of calls. */
  lemma {:induction false} AlwaysInv(project: Project, calls: seq<Call>)
    ensures Inv(Run(project, calls))
    decreases |calls|
  {
    hide Inv, Step;
    if calls == [] {
      InitialInv(project);
    } else {
      AlwaysInv(project, calls[..|calls| - 1]);
      StepKeeps(Run(project, calls[..|calls| - 1]), calls[|calls| - 1]);
    }
  }

  // ----- what callers rely on

  /** In every run: at most one journal is open; a recovery candidate exists exactly while one is in an active
      phase, and names it; the completed accepts form a chain from the initial main to the project's, each expecting
      what the one before it produced, with exactly one event each. */
  lemma OneChain(project: Project, calls: seq<Call>)
    ensures var s := Run(project, calls); var journals := s.db.journals;
            && (forall a, b | a in journals && b in journals && !journals[a].phase.Completed? && !journals[b].phase.Completed? :: a == b)
            && (s.db.candidate.Some? <==> exists op :: op in journals && journals[op].phase.In?)
            && (s.db.candidate.Some? ==> s.db.candidate.value.operation in journals && journals[s.db.candidate.value.operation].phase.In?)
            && |s.db.events| == |s.accepted| && MainBefore(s, |s.accepted|) == Some(s.db.project.main)
            && (forall i | 0 <= i < |s.accepted| :: LinkOk(s, i))
            && (forall i, j | 0 <= i < j < |s.accepted| :: s.accepted[i] != s.accepted[j])
            && (forall op | op in journals :: journals[op].phase.Completed? <==> op in s.accepted)
  {
    hide Run, ResponsesOk, JournalsOk, KeysUnique;
    AlwaysInv(project, calls);
    var s := Run(project, calls);
    forall op | op in s.accepted && op in s.db.journals ensures s.db.journals[op].phase.Completed? {
      var i :| 0 <= i < |s.accepted| && s.accepted[i] == op;
      assert LinkOk(s, i);
    }
  }

  /** A journal's plan and, once recorded, its result never change; completed and recovery-required are final. */
  ghost predicate Preserves(was: Journal, j: Journal) {
    && j.plan == was.plan && (was.result.Some? ==> j.result == was.result)
    && (was.phase.Completed? ==> j == was) && (was.phase.RecoveryRequired? ==> j.phase == was.phase)
  }

  /** An operation changes at most its own journal, as allowed, and no response. */
  ghost predicate ChangesOwn(db: Db, t: Db, op: Operation) {
    && t.responses == db.responses
    && (t.journals == db.journals
        || (op in t.journals && t.journals == db.journals[op := t.journals[op]]
            && (op in db.journals ==> Preserves(db.journals[op], t.journals[op]))))
  }

  lemma SchedulingChanges(db: Db, op: Operation, at: int, createdAt: int, value: Advance)
    ensures var r := Scheduling(db, op, at, createdAt, value);
            r.Ok? ==> r.db.journals == db.journals && r.db.responses == db.responses
  {}

  lemma PrepareChanges(db: Db, p: Plan)
    ensures Prepare(db, p).Ok? ==> ChangesOwn(db, Prepare(db, p).db, p.operation)
  {
    hide Scheduling, Fenced, Nonterminal, KeyTaken, Canonical;
    var j := Journal(p, In(Prepared), None, p.preparedAt);
    SchedulingChanges(db.(journals := db.journals[p.operation := j]), p.operation, p.preparedAt, p.preparedAt, Created);
    if p.operation in db.journals {
      SchedulingChanges(db, p.operation, db.journals[p.operation].updatedAt, p.preparedAt, Replayed);
    }
  }

  lemma PersistChanges(db: Db, op: Operation, expected: Active, result: Oid, at: int)
    ensures var r := PersistResult(db, op, expected, result, at); r.Ok? ==> ChangesOwn(db, r.db, op)
  {
    hide Scheduling;
    if op in db.journals {
      var j := db.journals[op];
      SchedulingChanges(db, op, at, j.plan.preparedAt, Replayed);
      SchedulingChanges(db.(journals := db.journals[op := Journal(j.plan, In(ResultPersisted), Some(result), at)]),
                        op, at, j.plan.preparedAt, Advanced);
    }
  }

  lemma MarkChanges(db: Db, op: Operation, expected: Active, at: int)
    ensures var r := MarkMainUpdated(db, op, expected, at); r.Ok? ==> ChangesOwn(db, r.db, op)
  {
    hide Scheduling;
    if op in db.journals {
      var j := db.journals[op];
      SchedulingChanges(db, op, at, j.plan.preparedAt, Replayed);
      SchedulingChanges(db.(journals := db.journals[op := Journal(j.plan, In(MainUpdated), j.result, at)]),
                        op, at, j.plan.preparedAt, Advanced);
    }
  }

  lemma RecoverChanges(db: Db, op: Operation, expected: Active, at: int)
    ensures var r := MarkRecoveryRequired(db, op, expected, at); r.Ok? ==> ChangesOwn(db, r.db, op)
  {}

  lemma OwnPreserves(db: Db, t: Db, k: Operation, op: Operation)
    requires ChangesOwn(db, t, k) && op in db.journals
    ensures op in t.journals && Preserves(db.journals[op], t.journals[op]) && t.responses == db.responses
  {}

  lemma AdvancesPreserve(s: State, c: Call, op: Operation)
    requires op in s.db.journals && (c.Preparing? || c.Persisting? || c.Marking? || c.Recovering?)
    ensures var t := Step(s, c); op in t.db.journals && Preserves(s.db.journals[op], t.db.journals[op])
    ensures Step(s, c).db.responses == s.db.responses
  {
    hide ChangesOwn, Prepare, PersistResult, MarkMainUpdated, MarkRecoveryRequired;
    var t := Step(s, c).db;
    match c
    case Preparing(plan) =>
      PrepareChanges(s.db, plan);
      if t != s.db { OwnPreserves(s.db, t, plan.operation, op); }
    case Persisting(k, expected, result, at) =>
      PersistChanges(s.db, k, expected, result, at);
      if t != s.db { OwnPreserves(s.db, t, k, op); }
    case Marking(k, expected, at) =>
      MarkChanges(s.db, k, expected, at);
      if t != s.db { OwnPreserves(s.db, t, k, op); }
    case Recovering(k, expected, at) =>
      RecoverChanges(s.db, k, expected, at);
      if t != s.db { OwnPreserves(s.db, t, k, op); }
  }

  lemma CompletingPreserves(s: State, k: Operation, at: int, op: Operation)
    requires Inv(s) && op in s.db.journals
    ensures var t := Step(s, Completing(k, at)); op in t.db.journals && Preserves(s.db.journals[op], t.db.journals[op])
    ensures var id := Identify(s.db.journals[op].plan);
            s.db.journals[op].phase.Completed? && id in s.db.responses ==>
              id in Step(s, Completing(k, at)).db.responses && Step(s, Completing(k, at)).db.responses[id] == s.db.responses[id]
  {
    hide Fenced, Closable, Matches, Storable, Closed, MergedRequest, ResponseOf, ChainOk, ResponsesOk, OneOpen, CandidateOk,
         Canonical, JournalsOk;
  }

  lemma StepPreserves(s: State, c: Call, op: Operation)
    requires Inv(s) && op in s.db.journals
    ensures var t := Step(s, c); op in t.db.journals && Preserves(s.db.journals[op], t.db.journals[op])
    ensures var id := Identify(s.db.journals[op].plan);
            s.db.journals[op].phase.Completed? && id in s.db.responses ==>
              id in Step(s, c).db.responses && Step(s, c).db.responses[id] == s.db.responses[id]
  {
    hide Inv, After, Prepare, PersistResult, MarkMainUpdated, MarkRecoveryRequired, Complete;
    match c
    case Completing(k, at) => CompletingPreserves(s, k, at, op);
    case Elsewhere(_, _, _, _, _) =>
    case _ => AdvancesPreserve(s, c, op);
  }

  /** While an operation needs recovery, no new accept can be prepared and that operation cannot move. */
  lemma RecoveryBlocks(s: State, op: Operation, c: Call)
    requires Inv(s) && op in s.db.journals && s.db.journals[op].phase.RecoveryRequired?
    ensures var t := Step(s, c);
            && t.db.journals.Keys == s.db.journals.Keys && t.accepted == s.accepted && t.db.events == s.db.events
            && t.db.project.main == s.db.project.main && op in t.db.journals && t.db.journals[op] == s.db.journals[op]
  {
    hide Fenced, Closable, Matches, Storable, Closed, MergedRequest, ResponseOf, ChainOk, ResponsesOk, KeysUnique,
         CandidateOk, Canonical, KeyTaken, JournalsOk;
    assert Nonterminal(s.db);
  }

  /** The operation has completed, and completing it returns this response and changes nothing. */
  ghost predicate Done(db: Db, op: Operation, response: Response) {
    op in db.journals && db.journals[op].phase.Completed? && forall at :: Complete(db, op, at) == Ok(db, response)
  }

  /** Completing again, at any later moment, returns the first response and changes nothing. */
  lemma {:induction false} CompletionRepeats(project: Project, calls: seq<Call>, op: Operation, at: int, later: seq<Call>)
    requires Complete(Run(project, calls).db, op, at).Ok?
    ensures Done(Run(project, calls + [Completing(op, at)] + later).db, op, Complete(Run(project, calls).db, op, at).value)
    decreases |later|
  {
    hide Inv, Run, Step, Complete, Done;
    AlwaysInv(project, calls);
    if later == [] {
      assert calls + [Completing(op, at)] + later == calls + [Completing(op, at)];
      RunMore(project, calls, Completing(op, at));
      CompletedNow(Run(project, calls), op, at);
    } else {
      var front, c := later[..|later| - 1], later[|later| - 1];
      var before := calls + [Completing(op, at)] + front;
      assert calls + [Completing(op, at)] + later == before + [c];
      CompletionRepeats(project, calls, op, at, front);
      RunMore(project, before, c);
      AlwaysInv(project, before);
      StillDone(Run(project, before), c, op, Complete(Run(project, calls).db, op, at).value);
    }
  }

  lemma RunMore(project: Project, calls: seq<Call>, c: Call)
    ensures Run(project, calls + [c]) == Step(Run(project, calls), c)
  {
    assert (calls + [c])[..|calls|] == calls;
  }

  lemma CompletedNow(s: State, op: Operation, at: int)
    requires Inv(s) && Complete(s.db, op, at).Ok?
    ensures Done(Step(s, Completing(op, at)).db, op, Complete(s.db, op, at).value)
  {
    hide Fenced, Closable, Closed, MergedRequest, ResponseOf, Inv, Matches;
    var t := Step(s, Completing(op, at));
    if !s.db.journals[op].phase.Completed? {
      MatchesDone(Complete(s.db, op, at).value, s.db.journals[op], t.db.journals[op], at);
    }
  }

  lemma StillDone(s: State, c: Call, op: Operation, response: Response)
    requires Inv(s) && Done(s.db, op, response)
    ensures Done(Step(s, c).db, op, response)
  {
    hide Fenced, Closable, Closed, MergedRequest, ResponseOf, Matches, Step, Inv;
    assert Complete(s.db, op, 0) == Ok(s.db, response);
    StepPreserves(s, c, op);
  }

  /** Repeating a step with the same arguments right away is recognised and changes nothing. */
  lemma PersistRepeats(db: Db, op: Operation, expected: Active, result: Oid, at: int)
    ensures var r := PersistResult(db, op, expected, result, at);
            r.Ok? ==> PersistResult(r.db, op, expected, result, at) == Ok(r.db, Replayed)
  {}

  lemma MarkRepeats(db: Db, op: Operation, expected: Active, at: int)
    ensures var r := MarkMainUpdated(db, op, expected, at);
            r.Ok? ==> MarkMainUpdated(r.db, op, expected, at) == Ok(r.db, Replayed)
  {}

  lemma RecoverRepeats(db: Db, op: Operation, expected: Active, at: int)
    ensures var r := MarkRecoveryRequired(db, op, expected, at);
            r.Ok? ==> MarkRecoveryRequired(r.db, op, expected, at) == Ok(r.db, Replayed)
  {}

  /** The check of the response against the journal never fails: the fences already imply it. */
  lemma CompletionMatches(db: Db, j: Journal, at: int)
    requires Canonical(j.plan) && Fenced(db, j.plan) && Closable(db, j.plan) && j.result.Some?
    ensures var p := j.plan; var merged := MergedRequest(p, db.requests[p.request], j.result.value, at);
            Matches(ResponseOf(p, merged, Closed(p, db.tickets), j.result.value), j, at)
  {
    var p := j.plan;
    var r := db.requests[p.request];
    var merged := MergedRequest(p, r, j.result.value, at);
    var response := ResponseOf(p, merged, Closed(p, db.tickets), j.result.value);
    assert response.relations.Keys == r.relations.Keys;
    assert |response.relations| == |response.relations.Keys| && |r.relations| == |r.relations.Keys|;
    forall i | 0 <= i < |p.relations|
      ensures var planned := p.relations[i];
              && planned.id in response.relations
              && response.relations[planned.id] == RelationRow(planned.ticket, planned.commit, planned.resolves, j.result)
              && planned.id in response.revisions
              && response.revisions[planned.id] == planned.ticketRevision + if planned.resolves then 1 else 0
    {
      var planned := p.relations[i];
      assert Lists(p, planned.id);
      assert Closes(p, planned.ticket) <==> planned.resolves;
    }
  }

  /** What completing does: main moves from the planned value to the result, the request is merged, and exactly
      the tickets to resolve are closed, one revision on. */
  lemma CompletionEffect(db: Db, op: Operation, at: int)
    requires op in db.journals && !db.journals[op].phase.Completed? && Complete(db, op, at).Ok?
    ensures var p := db.journals[op].plan; var r := Complete(db, op, at);
            && db.project.main == p.expectedMain && db.journals[op].result == Some(r.db.project.main)
            && r.value.main == r.db.project.main
            && p.request in db.requests && db.requests[p.request].status.Open?
            && r.db.requests[p.request].status == Merged(r.value.main)
            && (forall t | t in db.tickets ::
                  r.db.tickets[t] == if Closes(p, t) then Ticket(false, db.tickets[t].revision + 1, Some(p.actor)) else db.tickets[t])
  {
    hide Matches, Closable, Closes, RelationsLive, Storable, Identify, Accepted;
  }

  /** When completing succeeds: the fences alone decide, unless something else is stored under the identity. */
  lemma CompletionWhen(db: Db, op: Operation, at: int)
    requires JournalsOk(db.journals) && op in db.journals && !db.journals[op].phase.Completed?
    requires Identify(db.journals[op].plan) !in db.responses
    ensures var j := db.journals[op];
            Complete(db, op, at).Ok? <==>
              j.phase == In(MainUpdated) && j.updatedAt <= at && Fenced(db, j.plan) && Closable(db, j.plan)
  {
    hide Matches, MergedRequest, ResponseOf, Closable, Canonical, Closed, RelationsLive;
    var j := db.journals[op];
    assert JournalOk(op, j);
    if j.result.Some? && Fenced(db, j.plan) && Closable(db, j.plan) {
      CompletionMatches(db, j, at);
    }
  }

  // ----- when each step succeeds, and what it does

  /** The relation rows a plan expects: exactly these, all pending. */
  function PlannedRows(relations: seq<Relation>): map<nat, RelationRow> {
    if relations == [] then map[]
    else
      var last := relations[|relations| - 1];
      PlannedRows(relations[..|relations| - 1])[last.id := RelationRow(last.ticket, last.commit, last.resolves, None)]
  }

  ghost predicate Listed(relations: seq<Relation>, id: nat) { exists i :: 0 <= i < |relations| && relations[i].id == id }

  lemma ListedMore(relations: seq<Relation>, id: nat)
    requires relations != []
    ensures var n := |relations| - 1; Listed(relations, id) <==> Listed(relations[..n], id) || id == relations[n].id
  {
    var n := |relations| - 1;
    if Listed(relations, id) && id != relations[n].id {
      var i :| 0 <= i < |relations| && relations[i].id == id;
      assert relations[..n][i].id == id;
    }
    if Listed(relations[..n], id) {
      var i :| 0 <= i < n && relations[..n][i].id == id;
      assert relations[i].id == id;
    }
  }

  lemma {:induction false} PlannedKeys(relations: seq<Relation>)
    requires forall i, j | 0 <= i < j < |relations| :: relations[i].id < relations[j].id
    ensures |PlannedRows(relations)| == |relations| && forall id :: id in PlannedRows(relations) <==> Listed(relations, id)
  {
    hide Listed;
    if relations == [] {
      assert forall id :: !Listed(relations, id) by { NobodyListed(); }
    } else {
      var n := |relations| - 1;
      var front, last := relations[..n], relations[n];
      PlannedKeys(front);
      var before, rows := PlannedRows(front), PlannedRows(relations);
      NotListedYet(relations);
      assert last.id !in before;
      assert rows.Keys == before.Keys + {last.id};
      assert |rows| == |rows.Keys| && |before| == |before.Keys|;
      forall id ensures id in rows <==> Listed(relations, id) {
        ListedMore(relations, id);
      }
    }
  }

  lemma NobodyListed()
    ensures forall id :: !Listed([], id)
  {}

  lemma NotListedYet(relations: seq<Relation>)
    requires relations != [] && forall i, j | 0 <= i < j < |relations| :: relations[i].id < relations[j].id
    ensures !Listed(relations[..|relations| - 1], relations[|relations| - 1].id)
  {}

  lemma {:induction false} PlannedValues(relations: seq<Relation>, i: nat)
    requires (forall i, j | 0 <= i < j < |relations| :: relations[i].id < relations[j].id) && i < |relations|
    ensures var rows := PlannedRows(relations);
            relations[i].id in rows
            && rows[relations[i].id] == RelationRow(relations[i].ticket, relations[i].commit, relations[i].resolves, None)
  {
    if i < |relations| - 1 {
      PlannedValues(relations[..|relations| - 1], i);
    }
  }

  lemma PlannedAt(relations: seq<Relation>)
    requires forall i, j | 0 <= i < j < |relations| :: relations[i].id < relations[j].id
    ensures var rows := PlannedRows(relations);
            && |rows| == |relations|
            && (forall i | 0 <= i < |relations| :: relations[i].id in rows
                  && rows[relations[i].id] == RelationRow(relations[i].ticket, relations[i].commit, relations[i].resolves, None))
            && (forall id | id in rows :: exists i :: 0 <= i < |relations| && relations[i].id == id)
  {
    hide PlannedRows;
    PlannedKeys(relations);
    forall i | 0 <= i < |relations|
      ensures relations[i].id in PlannedRows(relations)
      ensures PlannedRows(relations)[relations[i].id]
              == RelationRow(relations[i].ticket, relations[i].commit, relations[i].resolves, None)
    {
      PlannedValues(relations, i);
    }
    forall id | id in PlannedRows(relations) ensures exists i :: 0 <= i < |relations| && relations[i].id == id {
      assert Listed(relations, id);
    }
  }

  lemma RowsExact(p: Plan, rows: map<nat, RelationRow>)
    requires Canonical(p)
    ensures rows == PlannedRows(p.relations) <==>
              |rows| == |p.relations|
              && forall i | 0 <= i < |p.relations| ::
                   var planned := p.relations[i];
                   planned.id in rows && rows[planned.id] == RelationRow(planned.ticket, planned.commit, planned.resolves, None)
  {
    PlannedAt(p.relations);
    var planned := PlannedRows(p.relations);
    if |rows| == |p.relations|
       && forall i | 0 <= i < |p.relations| ::
            p.relations[i].id in rows
            && rows[p.relations[i].id] == RelationRow(p.relations[i].ticket, p.relations[i].commit, p.relations[i].resolves, None) {
      forall id | id in planned ensures id in rows && rows[id] == planned[id] {
        var i :| 0 <= i < |p.relations| && p.relations[i].id == id;
      }
      assert planned.Keys <= rows.Keys && |planned.Keys| == |planned| && |rows.Keys| == |rows|;
      SubsetEqual(planned.Keys, rows.Keys);
      assert forall id | id in rows :: id in planned;
    }
  }

  lemma SubsetEqual(a: set<nat>, b: set<nat>)
    requires a <= b && |a| == |b|
    ensures a == b
  {
    if x :| x in b && x !in a {
      SubsetCardinality(a, b - {x});
    }
  }

  /** The fences, spelled out: the project serves at the planned main and placement, and the request is open as
      planned with exactly the planned relations pending and their tickets at the planned revisions. */
  lemma FencedMeans(db: Db, p: Plan)
    requires Canonical(p)
    ensures Fenced(db, p) <==>
              db.project.service == Serving && db.project.main == p.expectedMain && db.project.placement == p.placement
              && p.request in db.requests
              && (var r := db.requests[p.request];
                  r == Request(p.requestMember, p.expectedHead, p.requestRevision, Open, r.updatedAt, PlannedRows(p.relations)))
              && forall i | 0 <= i < |p.relations| ::
                   p.relations[i].ticket in db.tickets
                   && db.tickets[p.relations[i].ticket].revision == p.relations[i].ticketRevision
  {
    hide Canonical, PlannedRows;
    if p.request in db.requests {
      RowsExact(p, db.requests[p.request].relations);
    }
  }

  /** A plan is accepted when it is the one already journalled, or when no accept is open, the fences hold and its
      identity is new; then the journal is prepared and a candidate names it. Nothing else changes. */
  lemma PrepareWhen(s: State, p: Plan)
    requires Inv(s)
    ensures Prepare(s.db, p).Ok? <==>
              Canonical(p)
              && if p.operation in s.db.journals then s.db.journals[p.operation].plan == p
                 else (forall op | op in s.db.journals :: s.db.journals[op].phase.Completed?) && Fenced(s.db, p)
                      && forall op | op in s.db.journals :: Identify(s.db.journals[op].plan) != Identify(p)
    ensures var r := Prepare(s.db, p);
            r.Ok? && p.operation !in s.db.journals ==>
              r == Ok(s.db.(journals := s.db.journals[p.operation := Journal(p, In(Prepared), None, p.preparedAt)],
                            candidate := Some(Candidate(p.operation, p.preparedAt, p.preparedAt))), Created)
    ensures var r := Prepare(s.db, p);
            r.Ok? && p.operation in s.db.journals ==>
              r.value == Replayed && r.db == s.db.(candidate := r.db.candidate)
              && (if s.db.journals[p.operation].phase.In? then r.db.candidate.Some? && r.db.candidate.value.operation == p.operation
                  else r.db.candidate == s.db.candidate)
  {
    hide Fenced, Canonical, ChainOk, ResponsesOk, OneOpen, KeysUnique;
    if p.operation in s.db.journals {
      JournalKept(s, p.operation);
    } else if !Nonterminal(s.db) {
      NoCandidate(s.db);
    }
    hide JournalsOk;
  }

  /** An active journal's candidate can always be rescheduled. */
  lemma Reschedules(s: State, op: Operation, j: Journal, at: int, value: Advance)
    requires Inv(s) && op in s.db.journals && s.db.journals[op].phase.In? && j.plan == s.db.journals[op].plan
    requires j.plan.preparedAt <= at
    ensures var db := s.db.(journals := s.db.journals[op := j]);
            Scheduling(db, op, at, j.plan.preparedAt, value)
            == Ok(db.(candidate := Some(Candidate(op, at, j.plan.preparedAt))), value)
  {
    hide JournalsOk, OneOpen, KeysUnique, ChainOk, ResponsesOk;
  }

  /** When a result is recorded: for a prepared journal, no earlier than its last change, and for a contained accept
      only the expected main; or when exactly this was recorded already. The candidate is rescheduled; nothing else
      changes. */
  lemma PersistWhen(s: State, op: Operation, expected: Active, result: Oid, at: int)
    requires Inv(s) && op in s.db.journals
    ensures var j := s.db.journals[op]; var r := PersistResult(s.db, op, expected, result, at);
            var again := j.phase == In(ResultPersisted) && j.result == Some(result) && j.updatedAt == at;
            && (r.Ok? <==> (j.plan.merge || result == j.plan.expectedMain)
                           && (again || (j.phase == In(Prepared) && expected == Prepared && j.updatedAt <= at)))
            && (r.Ok? ==>
                  r == Ok(s.db.(journals := s.db.journals[op := Journal(j.plan, In(ResultPersisted), Some(result), at)],
                                candidate := Some(Candidate(op, at, j.plan.preparedAt))), if again then Replayed else Advanced))
  {
    hide Inv, Scheduling;
    var j := s.db.journals[op];
    JournalKept(s, op);
    SameJournal(s.db.journals, op);
    if j.phase.In? && j.updatedAt <= at {
      Reschedules(s, op, j, at, Replayed);
      Reschedules(s, op, Journal(j.plan, In(ResultPersisted), Some(result), at), at, Advanced);
    }
  }

  /** When main is recorded as updated: for a journal with its result, no earlier than its last change; or when
      exactly this was recorded already. */
  lemma MarkWhen(s: State, op: Operation, expected: Active, at: int)
    requires Inv(s) && op in s.db.journals
    ensures var j := s.db.journals[op]; var r := MarkMainUpdated(s.db, op, expected, at);
            var again := j.phase == In(MainUpdated) && j.updatedAt == at;
            && (r.Ok? <==> again || (j.phase == In(ResultPersisted) && expected == ResultPersisted && j.updatedAt <= at))
            && (r.Ok? ==>
                  r == Ok(s.db.(journals := s.db.journals[op := Journal(j.plan, In(MainUpdated), j.result, at)],
                                candidate := Some(Candidate(op, at, j.plan.preparedAt))), if again then Replayed else Advanced))
  {
    hide Inv, Scheduling;
    var j := s.db.journals[op];
    JournalKept(s, op);
    SameJournal(s.db.journals, op);
    if j.phase.In? && j.updatedAt <= at {
      Reschedules(s, op, j, at, Replayed);
      Reschedules(s, op, Journal(j.plan, In(MainUpdated), j.result, at), at, Advanced);
    }
  }

  /** When recovery is recorded as required, and what that does, repeated calls included: the project no longer
      serves and leaves the catalogue, no candidate names the operation, and main, requests, tickets, responses and
      events stay. */
  lemma RecoveryWhen(db: Db, op: Operation, expected: Active, at: int)
    ensures var r := MarkRecoveryRequired(db, op, expected, at);
            && (r.Ok? <==>
                  op in db.journals && db.project.service != Otherwise
                  && (var j := db.journals[op];
                      (j.phase == RecoveryRequired(expected) && j.updatedAt == at) || (j.phase == In(expected) && j.updatedAt <= at)))
            && (r.Ok? ==>
                  && r.db.project == Project(db.project.main, NeedsRecovery, db.project.placement, false)
                  && (r.db.candidate.Some? ==> r.db.candidate.value.operation != op)
                  && (db.candidate.Some? && db.candidate.value.operation != op ==> r.db.candidate == db.candidate)
                  && r.db.journals == db.journals[op := Journal(db.journals[op].plan, RecoveryRequired(expected), db.journals[op].result, at)]
                  && r.db.requests == db.requests && r.db.tickets == db.tickets && r.db.responses == db.responses
                  && r.db.events == db.events
                  && r.value == if db.journals[op].phase.In? then Advanced else Replayed)
  {
    if op in db.journals {
      SameJournal(db.journals, op);
    }
  }

  // ----- the transactions as the source writes them

  class AcceptPersistence {
    var journals: map<Operation, Journal>
    var candidate: Option<Candidate>
    var project: Project
    var requests: map<nat, Request>
    var tickets: map<nat, Ticket>
    var responses: map<Identity, Stored>
    var events: seq<MainUpdatedEvent>

    function Now(): Db
      reads this
    {
      Db(journals, candidate, project, requests, tickets, responses, events)
    }

    /** A statement failed: the transaction is rolled back. */
    method Rollback(saved: Db)
      modifies this
      ensures Now() == saved
    {
      journals, candidate, project := saved.journals, saved.candidate, saved.project;
      requests, tickets, responses, events := saved.requests, saved.tickets, saved.responses, saved.events;
    }

    method ScheduleRecovery(op: Operation, at: int, createdAt: int) returns (ok: bool)
      modifies this`candidate
      ensures ok == Scheduled(old(Now()), op, at, createdAt).Some?
      ensures Now() == if ok then Scheduled(old(Now()), op, at, createdAt).value else old(Now())
    {
      ok := at >= createdAt;
      if ok && candidate.None? {
        candidate := Some(Candidate(op, at, createdAt));
      } else if ok {
        ok := candidate.value.operation == op && candidate.value.createdAt <= at;
        candidate := if ok then Some(candidate.value.(scheduledAt := at)) else candidate;
      }
    }

    method RemoveRecoveryCandidate(op: Operation)
      modifies this`candidate
      ensures Now() == Unscheduled(old(Now()), op)
    {
      if candidate.Some? && candidate.value.operation == op {
        candidate := None;
      }
    }

    method PreparePlan(plan: Plan) returns (r: Option<Advance>)
      modifies this
      ensures var spec := Prepare(old(Now()), plan);
              if spec.Ok? then Now() == spec.db && r == Some(spec.value) else Now() == old(Now()) && r == None
    {
      hide Canonical, Nonterminal, Fenced, KeyTaken, Scheduled;
      if !Canonical(plan) { return None; }
      var saved := Now();
      if plan.operation in journals {
        var existing := journals[plan.operation];
        if existing.plan != plan { return None; }
        var ok := true;
        if existing.phase.In? {
          ok := ScheduleRecovery(plan.operation, existing.updatedAt, plan.preparedAt);
        }
        return if ok then Some(Replayed) else None;
      }
      if Nonterminal(saved) || !Fenced(saved, plan) || KeyTaken(saved, plan) { return None; }
      journals := journals[plan.operation := Journal(plan, In(Prepared), None, plan.preparedAt)];
      var ok := ScheduleRecovery(plan.operation, plan.preparedAt, plan.preparedAt);
      if ok { return Some(Created); }
      Rollback(saved);
      r := None;
    }

    /** The journal's next row, then its recovery candidate. */
    method Advance(op: Operation, next: Journal, at: int, value: Advance) returns (r: Option<Advance>)
      modifies this
      ensures var spec := Scheduling(old(Now()).(journals := old(journals)[op := next]), op, at, next.plan.preparedAt, value);
              if spec.Ok? then Now() == spec.db && r == Some(spec.value) else Now() == old(Now()) && r == None
    {
      hide Scheduled;
      var saved := Now();
      journals := journals[op := next];
      var ok := ScheduleRecovery(op, at, next.plan.preparedAt);
      if ok { return Some(value); }
      Rollback(saved);
      r := None;
    }

    method PersistAcceptResult(op: Operation, expected: Active, result: Oid, at: int) returns (r: Option<Advance>)
      modifies this
      ensures var spec := PersistResult(old(Now()), op, expected, result, at);
              if spec.Ok? then Now() == spec.db && r == Some(spec.value) else Now() == old(Now()) && r == None
    {
      hide Scheduling;
      if op !in journals { return None; }
      var journal := journals[op];
      if !journal.plan.merge && result != journal.plan.expectedMain { return None; }
      if journal.phase == In(ResultPersisted) && journal.result == Some(result) && journal.updatedAt == at {
        SameJournal(journals, op);
        r := Advance(op, journal, at, Replayed);
        return;
      }
      if journal.phase != In(expected) || at < journal.updatedAt || expected != Prepared || journal.result.Some? { return None; }
      r := Advance(op, Journal(journal.plan, In(ResultPersisted), Some(result), at), at, Advanced);
    }

    method MarkAcceptMainUpdated(op: Operation, expected: Active, at: int) returns (r: Option<Advance>)
      modifies this
      ensures var spec := MarkMainUpdated(old(Now()), op, expected, at);
              if spec.Ok? then Now() == spec.db && r == Some(spec.value) else Now() == old(Now()) && r == None
    {
      hide Scheduling;
      if op !in journals { return None; }
      var journal := journals[op];
      if journal.phase == In(MainUpdated) && journal.updatedAt == at {
        SameJournal(journals, op);
        r := Advance(op, journal, at, Replayed);
        return;
      }
      if journal.phase != In(expected) || journal.result.None? || at < journal.updatedAt || expected != ResultPersisted {
        return None;
      }
      r := Advance(op, Journal(journal.plan, In(MainUpdated), journal.result, at), at, Advanced);
    }

    method MarkAcceptRecoveryRequired(op: Operation, expected: Active, at: int) returns (r: Option<Advance>)
      modifies this
      ensures var spec := MarkRecoveryRequired(old(Now()), op, expected, at);
              if spec.Ok? then Now() == spec.db && r == Some(spec.value) else Now() == old(Now()) && r == None
    {
      hide Unscheduled;
      if op !in journals { return None; }
      var saved, journal := Now(), journals[op];
      if journal.phase == RecoveryRequired(expected) && journal.updatedAt == at {
        r := Some(Replayed);
      } else {
        if journal.phase != In(expected) || at < journal.updatedAt { return None; }
        journals := journals[op := Journal(journal.plan, RecoveryRequired(expected), journal.result, at)];
        r := Some(Advanced);
      }
      if project.service.Otherwise? {
        Rollback(saved);
        return None;
      }
      project := project.(service := NeedsRecovery, catalogued := false);
      RemoveRecoveryCandidate(op);
    }

    method CompleteAccept(op: Operation, at: int) returns (r: Option<Response>)
      modifies this
      ensures var spec := Complete(old(Now()), op, at);
              if spec.Ok? then Now() == spec.db && r == Some(spec.value) else Now() == old(Now()) && r == None
    {
      hide Matches, Fenced, Closable, Closed, MergedRequest, ResponseOf, Storable, Unscheduled;
      if op !in journals { return None; }
      var saved, journal := Now(), journals[op];
      var id := Identify(journal.plan);
      if journal.phase.Completed? {
        return if id in responses && responses[id].fingerprint == journal.plan.fingerprint
                  && Matches(responses[id].response, journal, journal.updatedAt)
               then Some(responses[id].response) else None;
      }
      if journal.phase != In(MainUpdated) || journal.result.None? || at < journal.updatedAt || !Fenced(saved, journal.plan)
         || !Closable(saved, journal.plan) { return None; }
      FencedMain(saved, journal.plan);
      r := Settle(op, journal, at);
    }

    /** The statements of a completion past its fences; a failing check rolls them back. */
    method Settle(op: Operation, journal: Journal, at: int) returns (r: Option<Response>)
      requires op in journals && journal.result.Some? && journal.plan.request in requests
      modifies this
      ensures var db := old(Now()); var p := journal.plan; var result := journal.result.value; var id := Identify(p);
              var merged := MergedRequest(p, db.requests[p.request], result, at);
              var response := ResponseOf(p, merged, Closed(p, db.tickets), result);
              if !Matches(response, journal, at) || !Storable(db, id, Stored(p.fingerprint, response))
              then Now() == old(Now()) && r == None
              else r == Some(response)
                   && Now() == Unscheduled(db.(requests := db.requests[p.request := merged], tickets := Closed(p, db.tickets),
                                               project := db.project.(main := result),
                                               responses := db.responses[id := Stored(p.fingerprint, response)],
                                               events := db.events + [MainUpdatedEvent(result, p.request, at)],
                                               journals := db.journals[op := Journal(p, Completed, Some(result), at)]), op)
    {
      hide Matches, Closed, MergedRequest, ResponseOf, Storable, Unscheduled;
      var saved, plan, result := Now(), journal.plan, journal.result.value;
      requests := requests[plan.request := MergedRequest(plan, requests[plan.request], result, at)];
      tickets := Closed(plan, tickets);
      project := project.(main := result);
      var response := ResponseOf(plan, requests[plan.request], tickets, result);
      if !Matches(response, journal, at) || !Storable(saved, Identify(plan), Stored(plan.fingerprint, response)) {
        Rollback(saved);
        return None;
      }
      responses := responses[Identify(plan) := Stored(plan.fingerprint, response)];
      events := events + [MainUpdatedEvent(result, plan.request, at)];
      journals := journals[op := Journal(plan, Completed, Some(result), at)];
      RemoveRecoveryCandidate(op);
      r := Some(response);
    }
  }
}
