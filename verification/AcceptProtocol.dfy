/** Journal and repository together: a coordinator drives the steps of each accept in phase order, may crash
    anywhere and repeat any step. The main ref stays in step with the journal. */
module AcceptProtocol {
  import opened Common
  import J = AcceptJournal

  /** `main` is the ref in the repository; `moves` the operations that moved it. */
  datatype State = State(journal: J.State, main: J.Oid, initial: J.Oid, moves: seq<J.Operation>)

  /** `Settle` is the compare-and-swap of `settleAcceptMain` taking effect. */
  datatype Event = Journalled(call: J.Call) | Settle(operation: J.Operation)

  /** What the plan's materialisation returns: a function of the plan. */
  type Materialised = J.Plan -> J.Oid

  function Journal(s: State, op: J.Operation): Option<J.Journal> {
    if op in s.journal.db.journals then Some(s.journal.db.journals[op]) else None
  }

  /** Settling is driven by a journal whose result is recorded and that has not completed. */
  predicate MaySettle(s: State, op: J.Operation) {
    var j := Journal(s, op);
    && j.Some? && (j.value.phase == J.In(J.ResultPersisted) || j.value.phase == J.In(J.MainUpdated))
    && j.value.result.Some? && j.value.plan.merge
    && s.main != j.value.result.value && s.main == j.value.plan.expectedMain
  }

  /** Phase order: what is persisted was materialised from the journaled plan, and main-updated is recorded after
      main was seen at the result. */
  predicate Driven(s: State, materialised: Materialised, c: J.Call) {
    match c
    case Persisting(op, _, result, _) =>
      Journal(s, op).Some? && result == if Journal(s, op).value.plan.merge then materialised(Journal(s, op).value.plan)
                                        else Journal(s, op).value.plan.expectedMain
    case Marking(op, _, _) =>
      Journal(s, op).Some? && Journal(s, op).value.result == Some(s.main)
    case _ => true
  }

  function Step(s: State, materialised: Materialised, e: Event): State {
    match e
    case Journalled(c) => if Driven(s, materialised, c) then s.(journal := J.Step(s.journal, c)) else s
    case Settle(op) =>
      if MaySettle(s, op) then s.(main := Journal(s, op).value.result.value, moves := s.moves + [op]) else s
  }

  function Run(project: J.Project, materialised: Materialised, events: seq<Event>): State {
    if events == [] then State(J.Initial(project), project.main, project.main, [])
    else Step(Run(project, materialised, events[..|events| - 1]), materialised, events[|events| - 1])
  }

  // ----- the invariant

  predicate Started(j: J.Journal) {
    match j.phase
    case In(active) => !active.Prepared?
    case RecoveryRequired(from) => !from.Prepared?
    case Completed => false
  }

  /** An open accept expects the project's main; the ref is there, or at its recorded result, and surely at the
      result once main-updated was recorded. */
  ghost predicate OpenOk(s: State, op: J.Operation)
    requires op in s.journal.db.journals
  {
    var j := s.journal.db.journals[op];
    && j.plan.expectedMain == s.journal.db.project.main
    && (op in s.moves ==> j.result == Some(s.main) && s.main != j.plan.expectedMain)
    && (op !in s.moves ==> s.main == s.journal.db.project.main)
    && ((j.phase == J.In(J.MainUpdated) || j.phase == J.RecoveryRequired(J.MainUpdated)) ==> j.result == Some(s.main))
    && (Started(j) <==> j.result.Some?)
  }

  /** Recorded results are the materialised ones. */
  ghost predicate ResultsOk(s: State, materialised: Materialised) {
    forall op | op in s.journal.db.journals && s.journal.db.journals[op].result.Some? ::
      var j := s.journal.db.journals[op];
      j.result.value == if j.plan.merge then materialised(j.plan) else j.plan.expectedMain
  }

  ghost predicate MovesOk(s: State) {
    && (forall i, k | 0 <= i < k < |s.moves| :: s.moves[i] != s.moves[k])
    && (forall op | op in s.moves :: op in s.journal.db.journals)
  }

  ghost predicate Inv(s: State, materialised: Materialised) {
    && J.Inv(s.journal) && MovesOk(s) && ResultsOk(s, materialised)
    && (forall op | op in s.journal.db.journals && !s.journal.db.journals[op].phase.Completed? :: OpenOk(s, op))
    && ((forall op | op in s.journal.db.journals :: s.journal.db.journals[op].phase.Completed?) ==>
          s.main == s.journal.db.project.main)
  }

  // ----- what a journal call does

  function Subject(c: J.Call): J.Operation {
    match c
    case Preparing(plan) => plan.operation
    case Persisting(op, _, _, _) => op
    case Marking(op, _, _) => op
    case Recovering(op, _, _) => op
    case Completing(op, _) => op
    case Elsewhere(_, _, _, _, _) => 0
  }

  /** How a call may change the journal of its operation. */
  ghost predicate Advances(was: J.Journal, j: J.Journal, c: J.Call) {
    && j.plan == was.plan
    && match c
       case Preparing(_) => j == was
       case Persisting(_, _, result, _) => j.phase == J.In(J.ResultPersisted) && j.result == Some(result)
                                           && (was.phase == J.In(J.Prepared) || j == was)
       case Marking(_, _, _) => j.phase == J.In(J.MainUpdated) && j.result == was.result
                                && (was.phase == J.In(J.ResultPersisted) || j == was)
       case Recovering(_, from, _) => j.phase == J.RecoveryRequired(from) && j.result == was.result
                                      && (was.phase == J.In(from) || j == was)
       case Completing(_, _) => j.phase == J.Completed && j.result == was.result && was.phase == J.In(J.MainUpdated)
       case Elsewhere(_, _, _, _, _) => false
  }

  /** Nothing but one journal and, when it completes, main. */
  ghost predicate Effect(s: J.Db, t: J.Db, c: J.Call) {
    var op := Subject(c);
    || (t.journals == s.journals && t.project.main == s.project.main)
    || (op in t.journals && t.journals == s.journals[op := t.journals[op]]
        && (t.project.main == if c.Completing? && t.journals[op].result.Some? then t.journals[op].result.value else s.project.main)
        && if op in s.journals then Advances(s.journals[op], t.journals[op], c)
           else c.Preparing? && t.journals[op].phase == J.In(J.Prepared) && t.journals[op].result.None?
                && t.journals[op].plan.expectedMain == s.project.main && !J.Nonterminal(s))
  }

  lemma SchedulingEffect(db: J.Db, op: J.Operation, at: int, createdAt: int, value: J.Advance)
    ensures var r := J.Scheduling(db, op, at, createdAt, value);
            r.Ok? ==> r.db.journals == db.journals && r.db.project == db.project
  {}

  lemma PrepareEffect(db: J.Db, p: J.Plan)
    requires J.Prepare(db, p).Ok?
    ensures Effect(db, J.Prepare(db, p).db, J.Preparing(p))
  {
    hide J.Scheduling, J.Nonterminal, J.KeyTaken, J.Canonical, J.RelationsLive;
    var j := J.Journal(p, J.In(J.Prepared), None, p.preparedAt);
    SchedulingEffect(db.(journals := db.journals[p.operation := j]), p.operation, p.preparedAt, p.preparedAt, J.Created);
    if p.operation in db.journals {
      SchedulingEffect(db, p.operation, db.journals[p.operation].updatedAt, p.preparedAt, J.Replayed);
    }
  }

  lemma PersistEffect(db: J.Db, op: J.Operation, expected: J.Active, result: J.Oid, at: int)
    requires J.PersistResult(db, op, expected, result, at).Ok?
    ensures Effect(db, J.PersistResult(db, op, expected, result, at).db, J.Persisting(op, expected, result, at))
  {
    hide J.Scheduling;
    var j := db.journals[op];
    SchedulingEffect(db, op, at, j.plan.preparedAt, J.Replayed);
    SchedulingEffect(db.(journals := db.journals[op := J.Journal(j.plan, J.In(J.ResultPersisted), Some(result), at)]),
                     op, at, j.plan.preparedAt, J.Advanced);
  }

  lemma MarkEffect(db: J.Db, op: J.Operation, expected: J.Active, at: int)
    requires J.MarkMainUpdated(db, op, expected, at).Ok?
    ensures Effect(db, J.MarkMainUpdated(db, op, expected, at).db, J.Marking(op, expected, at))
  {
    hide J.Scheduling;
    var j := db.journals[op];
    SchedulingEffect(db, op, at, j.plan.preparedAt, J.Replayed);
    SchedulingEffect(db.(journals := db.journals[op := J.Journal(j.plan, J.In(J.MainUpdated), j.result, at)]),
                     op, at, j.plan.preparedAt, J.Advanced);
  }

  lemma RecoverEffect(db: J.Db, op: J.Operation, expected: J.Active, at: int)
    requires J.MarkRecoveryRequired(db, op, expected, at).Ok?
    ensures Effect(db, J.MarkRecoveryRequired(db, op, expected, at).db, J.Recovering(op, expected, at))
  {}

  lemma CompleteEffect(db: J.Db, op: J.Operation, at: int)
    requires J.Complete(db, op, at).Ok?
    ensures Effect(db, J.Complete(db, op, at).db, J.Completing(op, at))
  {
    hide J.Matches, J.Fenced, J.Closable, J.Closed, J.MergedRequest, J.ResponseOf, J.Storable;
  }

  lemma CallEffect(s: J.State, c: J.Call)
    ensures Effect(s.db, J.Step(s, c).db, c)
  {
    hide J.Prepare, J.PersistResult, J.MarkMainUpdated, J.MarkRecoveryRequired, J.Complete;
    match c
    case Preparing(p) => if J.Prepare(s.db, p).Ok? { PrepareEffect(s.db, p); }
    case Persisting(op, expected, result, at) =>
      if J.PersistResult(s.db, op, expected, result, at).Ok? { PersistEffect(s.db, op, expected, result, at); }
    case Marking(op, expected, at) =>
      if J.MarkMainUpdated(s.db, op, expected, at).Ok? { MarkEffect(s.db, op, expected, at); }
    case Recovering(op, expected, at) =>
      if J.MarkRecoveryRequired(s.db, op, expected, at).Ok? { RecoverEffect(s.db, op, expected, at); }
    case Completing(op, at) => if J.Complete(s.db, op, at).Ok? { CompleteEffect(s.db, op, at); }
    case Elsewhere(_, _, _, _, _) =>
  }

  // ----- every step keeps the invariant

  lemma StartedJournals(journals: map<J.Operation, J.Journal>, op: J.Operation)
    requires J.JournalsOk(journals) && op in journals && !journals[op].phase.Completed?
    ensures Started(journals[op]) <==> journals[op].result.Some?
  {
    hide J.Canonical;
    assert J.JournalOk(op, journals[op]);
  }

  lemma JournalledKeeps(s: State, materialised: Materialised, c: J.Call)
    requires Inv(s, materialised) && Driven(s, materialised, c)
    ensures Inv(Step(s, materialised, Journalled(c)), materialised)
  {
    hide J.Step, J.Inv, OpenOk, Driven, ResultsOk, Effect;
    var t := s.(journal := J.Step(s.journal, c));
    J.StepKeeps(s.journal, c);
    CallEffect(s.journal, c);
    ResultsKept(s, materialised, c);
    J.InvParts(t.journal);
    forall op | op in t.journal.db.journals && !t.journal.db.journals[op].phase.Completed? ensures OpenOk(t, op) {
      StartedJournals(t.journal.db.journals, op);
      OpenKept(s, materialised, c, op);
    }
    MovesKept(s, t, c);
    if forall op | op in t.journal.db.journals :: t.journal.db.journals[op].phase.Completed? {
      NothingOpen(s, materialised, c);
    }
  }

  lemma MovesKept(s: State, t: State, c: J.Call)
    requires MovesOk(s) && Effect(s.journal.db, t.journal.db, c) && t.moves == s.moves
    ensures MovesOk(t)
  {
    hide J.Nonterminal, Advances;
  }

  lemma ResultsKept(s: State, materialised: Materialised, c: J.Call)
    requires ResultsOk(s, materialised) && Driven(s, materialised, c) && Effect(s.journal.db, J.Step(s.journal, c).db, c)
    ensures ResultsOk(s.(journal := J.Step(s.journal, c)), materialised)
  {
    hide J.Step;
  }

  /** The journal the call is about, still or newly open. */
  lemma OwnKept(s: State, t: J.State, materialised: Materialised, c: J.Call)
    requires MovesOk(s) && Driven(s, materialised, c) && Effect(s.journal.db, t.db, c) && t.db.journals != s.journal.db.journals
    requires var op := Subject(c);
             && op in t.db.journals && !t.db.journals[op].phase.Completed?
             && (Started(t.db.journals[op]) <==> t.db.journals[op].result.Some?)
             && (op in s.journal.db.journals ==> !s.journal.db.journals[op].phase.Completed? && OpenOk(s, op))
             && (op !in s.journal.db.journals ==> s.main == s.journal.db.project.main)
    ensures OpenOk(s.(journal := t), Subject(c))
  {
    hide J.Nonterminal;
  }

  /** Any other open journal: the call did not touch it, nor main. */
  lemma OtherKept(s: State, t: J.State, c: J.Call, op: J.Operation)
    requires J.OneOpen(s.journal.db.journals) && Effect(s.journal.db, t.db, c)
    requires op in s.journal.db.journals && !s.journal.db.journals[op].phase.Completed? && OpenOk(s, op)
    requires op in t.db.journals && (t.db.journals == s.journal.db.journals || op != Subject(c))
    ensures OpenOk(s.(journal := t), op)
  {}

  lemma OpenKept(s: State, materialised: Materialised, c: J.Call, op: J.Operation)
    requires Inv(s, materialised) && Driven(s, materialised, c) && Effect(s.journal.db, J.Step(s.journal, c).db, c)
    requires var t := J.Step(s.journal, c).db;
             op in t.journals && !t.journals[op].phase.Completed? && (Started(t.journals[op]) <==> t.journals[op].result.Some?)
    ensures OpenOk(s.(journal := J.Step(s.journal, c)), op)
  {
    hide J.Step, J.Inv, ResultsOk, OpenOk, Driven, Started;
    var t, db := J.Step(s.journal, c), s.journal.db;
    J.InvParts(s.journal);
    if t.db.journals != db.journals && op == Subject(c) {
      OwnKept(s, t, materialised, c);
    } else {
      OtherKept(s, t, c, op);
    }
  }

  lemma NothingOpen(s: State, materialised: Materialised, c: J.Call)
    requires Inv(s, materialised) && Effect(s.journal.db, J.Step(s.journal, c).db, c)
    requires forall op | op in J.Step(s.journal, c).db.journals :: J.Step(s.journal, c).db.journals[op].phase.Completed?
    ensures s.main == J.Step(s.journal, c).db.project.main
  {
    hide J.Step, J.Inv, ResultsOk, Started;
    var t, k, db := J.Step(s.journal, c).db, Subject(c), s.journal.db;
    if k in db.journals && !db.journals[k].phase.Completed? {
      assert OpenOk(s, k);
    } else {
      forall op | op in db.journals ensures db.journals[op].phase.Completed? {
        assert op in t.journals;
      }
    }
  }

  lemma SettleKeeps(s: State, materialised: Materialised, op: J.Operation)
    requires Inv(s, materialised) && MaySettle(s, op)
    ensures Inv(Step(s, materialised, Settle(op)), materialised)
  {
    hide J.Inv;
    J.InvParts(s.journal);
    assert OpenOk(s, op);
    var t := Step(s, materialised, Settle(op));
    assert t.moves == s.moves + [op];
  }

  lemma StartInv(project: J.Project, materialised: Materialised)
    ensures Inv(Run(project, materialised, []), materialised)
  {
    J.InitialInv(project);
    hide J.Inv;
  }

  lemma StepKeeps(s: State, materialised: Materialised, e: Event)
    requires Inv(s, materialised)
    ensures Inv(Step(s, materialised, e), materialised)
  {
    hide Inv, Driven, MaySettle, J.Step;
    match e
    case Journalled(c) => if Driven(s, materialised, c) { JournalledKeeps(s, materialised, c); }
    case Settle(op) => if MaySettle(s, op) { SettleKeeps(s, materialised, op); }
  }

  /** Main result: repository and journal stay in step, whatever is repeated or interrupted. */
  lemma {:induction false} AlwaysInv(project: J.Project, materialised: Materialised, events: seq<Event>)
    ensures Inv(Run(project, materialised, events), materialised)
    decreases |events|
  {
    hide Inv, Step;
    if events == [] {
      StartInv(project, materialised);
    } else {
      AlwaysInv(project, materialised, events[..|events| - 1]);
      StepKeeps(Run(project, materialised, events[..|events| - 1]), materialised, events[|events| - 1]);
    }
  }

  // ----- what callers rely on

  /** Each accept moves main at most once, and what it records as result is what its plan materialises to; when no
      accept is open, main is where the journal says; and main-updated is recorded only with main at the result. */
  lemma InStep(project: J.Project, materialised: Materialised, events: seq<Event>)
    ensures var s := Run(project, materialised, events); var journals := s.journal.db.journals;
            && (forall i, k | 0 <= i < k < |s.moves| :: s.moves[i] != s.moves[k])
            && (forall op | op in journals && journals[op].result.Some? :: journals[op].result.value ==
                  if journals[op].plan.merge then materialised(journals[op].plan) else journals[op].plan.expectedMain)
            && ((forall op | op in journals :: journals[op].phase.Completed?) ==> s.main == s.journal.db.project.main)
            && (forall op | op in journals && journals[op].phase == J.In(J.MainUpdated) :: journals[op].result == Some(s.main))
            && (forall op | op in journals && !journals[op].phase.Completed? ::
                  journals[op].plan.expectedMain == s.journal.db.project.main
                  && (s.main == s.journal.db.project.main || journals[op].result == Some(s.main)))
  {
    hide Run, J.Inv;
    AlwaysInv(project, materialised, events);
    var s := Run(project, materialised, events);
    forall op | op in s.journal.db.journals && !s.journal.db.journals[op].phase.Completed?
      ensures s.journal.db.journals[op].plan.expectedMain == s.journal.db.project.main
      ensures s.main == s.journal.db.project.main || s.journal.db.journals[op].result == Some(s.main)
      ensures s.journal.db.journals[op].phase == J.In(J.MainUpdated) ==> s.journal.db.journals[op].result == Some(s.main)
    {
      assert OpenOk(s, op);
    }
  }

  /** Main changes only by settling, from the value the journaled plan expects to its recorded result. */
  lemma MainMoves(project: J.Project, materialised: Materialised, events: seq<Event>, e: Event)
    ensures var s := Run(project, materialised, events); var t := Step(s, materialised, e);
            t.main != s.main ==>
              e.Settle? && e.operation !in s.moves && t.moves == s.moves + [e.operation]
              && Journal(s, e.operation).Some? && s.main == Journal(s, e.operation).value.plan.expectedMain
              && Journal(s, e.operation).value.result == Some(t.main)
  {
    hide Run, J.Inv, J.Step;
    AlwaysInv(project, materialised, events);
    var s := Run(project, materialised, events);
    if e.Settle? && MaySettle(s, e.operation) {
      assert OpenOk(s, e.operation);
    }
  }

  /** Settling goes through whenever it should: an accept with its result recorded and not yet moved finds main where
      its plan expects it, and moves it to the result. */
  lemma SettleMoves(project: J.Project, materialised: Materialised, events: seq<Event>, op: J.Operation)
    requires var s := Run(project, materialised, events); var j := Journal(s, op);
             j.Some? && j.value.phase == J.In(J.ResultPersisted) && j.value.plan.merge && op !in s.moves
             && j.value.result != Some(s.main)
    ensures var s := Run(project, materialised, events); var t := Step(s, materialised, Settle(op));
            s.main == Journal(s, op).value.plan.expectedMain && Journal(s, op).value.result == Some(t.main)
            && t.moves == s.moves + [op] && t.journal == s.journal
  {
    hide Run, J.Inv;
    AlwaysInv(project, materialised, events);
    assert OpenOk(Run(project, materialised, events), op);
  }

  /** And then main-updated may be recorded: the coordinator is never stuck between the two. */
  lemma MarkFollows(project: J.Project, materialised: Materialised, events: seq<Event>, op: J.Operation, at: int)
    requires var s := Run(project, materialised, events); var j := Journal(s, op);
             j.Some? && j.value.phase == J.In(J.ResultPersisted) && j.value.result == Some(s.main) && j.value.updatedAt <= at
    ensures var s := Run(project, materialised, events);
            var t := Step(s, materialised, Journalled(J.Marking(op, J.ResultPersisted, at)));
            Journal(t, op).Some? && Journal(t, op).value.phase == J.In(J.MainUpdated) && t.main == s.main
  {
    hide Run, J.Inv, J.MarkMainUpdated;
    AlwaysInv(project, materialised, events);
    J.MarkWhen(Run(project, materialised, events).journal, op, J.ResultPersisted, at);
  }
}
