/** Durable removal of an owned tree: marker, rename aside, delete, unmark. The parent directory is a durable
    state followed by a log of changes not yet synced; a crash keeps any prefix of the log. */
module DurableRemoval {
  import opened Common

  // ----- the parent directory

  type TreeId = nat

  /** A directory tree; `whole` is lost once its deletion has begun. */
  datatype Tree = NoTree | Tree(id: TreeId, whole: bool)

  /** A marker file: absent, the exact marker text (written on behalf of a tree), or anything less. */
  datatype File = NoFile | Exact(id: TreeId) | Partial

  datatype Directory = Directory(target: Tree, detached: Tree, marker: File, part: File)

  datatype Change =
    | Place(id: TreeId)
    | CreatePart | FillPart(id: TreeId) | PublishPart | RemovePart
    | MoveAside | DeleteSome | DeleteAll | RemoveMarker

  function Apply(d: Directory, c: Change): Directory {
    match c
    case Place(id) => d.(target := Tree(id, true))
    case CreatePart => d.(part := Partial)
    case FillPart(id) => d.(part := Exact(id))
    case PublishPart => d.(marker := d.part, part := NoFile)
    case RemovePart => d.(part := NoFile)
    case MoveAside => d.(detached := d.target, target := NoTree)
    case DeleteSome => if d.detached.Tree? then d.(detached := d.detached.(whole := false)) else d
    case DeleteAll => d.(detached := NoTree)
    case RemoveMarker => d.(marker := NoFile)
  }

  function ApplyAll(d: Directory, changes: seq<Change>): Directory {
    if changes == [] then d else Apply(ApplyAll(d, changes[..|changes| - 1]), changes[|changes| - 1])
  }

  datatype Disk = Disk(durable: Directory, log: seq<Change>) {
    /** What a crash that keeps `k` unsynced changes leaves. */
    function Image(k: nat): Directory
      requires k <= |log|
    {
      ApplyAll(durable, log[..k])
    }

    function Live(): Directory { Image(|log|) }

    function Change(c: Change): Disk { Disk(durable, log + [c]) }

    function Synced(): Disk { Disk(Live(), []) }

    function Crashed(k: nat): Disk
      requires k <= |log|
    {
      Disk(Image(k), [])
    }
  }

  // ----- one run, step by step

  datatype Failure = Conflict | Unavailable | NotOwned | Cancelled

  datatype Result = Removed | Replayed

  datatype Pc =
    | Idle
    | Inspect
    | Verify
    | ClearPart(intent: bool)
    | CreateMarker | FillMarker | RenameMarker | SyncMarker
    | Recheck
    | RenameAside | SyncAside
    | Delete | SyncDelete | SyncAbsent
    | Unmark | SyncUnmark(id: TreeId)
    | SyncReplay
    | Returned(result: Result)
    | Threw(failure: Failure)

  /** Bookkeeping over the whole history: fresh tree names, the trees that really are owned (settled when they are
      placed, whatever runs do), the trees verified as owned, the trees whose deletion began, and the trees for
      which a run returned `removed`. */
  datatype Book = Book(next: TreeId, owned: set<TreeId>, verified: set<TreeId>, deleted: set<TreeId>, removed: seq<TreeId>)

  datatype State = State(disk: Disk, pc: Pc, book: Book)

  /** How one step's system call ends. `took` says whether a failed call had its effect all the same;
      `cleaned` whether the marker writer's best-effort clean-up ran. */
  datatype Io = Done | Partly | Refused | Stop | Failed(took: bool, cleaned: bool)

  datatype Event = Start | PlaceTree(owned: bool) | Crash(keep: nat) | Run(io: Io)

  predicate Resting(pc: Pc) { pc.Idle? || pc.Returned? || pc.Threw? }

  function Goto(s: State, pc: Pc): State { s.(pc := pc) }

  /** The first look at the directory: marker, then both places. */
  function Inspected(d: Directory): Pc {
    if d.marker.Partial? then Threw(Conflict)
    else if d.target.Tree? && d.detached.Tree? then Threw(Conflict)
    else if d.marker.Exact? then ClearPart(true)
    else if d.detached.Tree? then Threw(Conflict)
    else if d.target.NoTree? then SyncReplay
    else Verify
  }

  /** The second look, once the marker is in place. */
  function Rechecked(d: Directory): Pc {
    if d.target.Tree? && d.detached.Tree? then Threw(Conflict)
    else if d.target.Tree? then RenameAside
    else if d.detached.Tree? then Delete
    else SyncAbsent
  }

  /** The change a step makes, where it makes one. */
  function Effect(s: State): Option<Change> {
    var d := s.disk.Live();
    match s.pc
    case ClearPart(_) => if d.part == NoFile then None else Some(RemovePart)
    case CreateMarker => Some(CreatePart)
    case FillMarker => if d.target.Tree? then Some(FillPart(d.target.id)) else None
    case RenameMarker => Some(PublishPart)
    case RenameAside => Some(MoveAside)
    case Delete => Some(DeleteAll)
    case Unmark => Some(RemoveMarker)
    case _ => None
  }

  predicate IsSync(pc: Pc) {
    pc.SyncMarker? || pc.SyncAside? || pc.SyncDelete? || pc.SyncAbsent? || pc.SyncUnmark? || pc.SyncReplay?
  }

  /** Where a step that succeeds goes next. */
  function After(s: State): Pc {
    var d := s.disk.Live();
    match s.pc
    case Inspect => Inspected(d)
    case Verify => ClearPart(false)
    case ClearPart(intent) => if intent then Recheck else CreateMarker
    case CreateMarker => FillMarker
    case FillMarker => RenameMarker
    case RenameMarker => SyncMarker
    case SyncMarker => Recheck
    case Recheck => Rechecked(d)
    case RenameAside => SyncAside
    case SyncAside => Delete
    case Delete => SyncDelete
    case SyncDelete => Unmark
    case SyncAbsent => Unmark
    case Unmark => if d.marker.Exact? then SyncUnmark(d.marker.id) else Threw(Unavailable)
    case SyncUnmark(_) => Returned(Removed)
    case SyncReplay => Returned(Replayed)
    case Idle => Idle
    case Returned(r) => Returned(r)
    case Threw(f) => Threw(f)
  }

  function Booked(s: State): Book {
    var d := s.disk.Live();
    match s.pc
    case Verify => if d.target.Tree? then s.book.(verified := s.book.verified + {d.target.id}) else s.book
    case Delete => if d.detached.Tree? then s.book.(deleted := s.book.deleted + {d.detached.id}) else s.book
    case SyncUnmark(id) => s.book.(removed := s.book.removed + [id])
    case _ => s.book
  }

  function Touched(s: State): Disk {
    if IsSync(s.pc) then s.disk.Synced()
    else match Effect(s) case None => s.disk case Some(c) => s.disk.Change(c)
  }

  predicate WritesMarker(pc: Pc) {
    pc.CreateMarker? || pc.FillMarker? || pc.RenameMarker? || pc.SyncMarker?
  }

  /** What the ownership check answers about the tree at the target. */
  predicate OwnedTarget(s: State) {
    s.disk.Live().target.Tree? && s.disk.Live().target.id in s.book.owned
  }

  /** One step of a run. The ownership check passes exactly for an owned target. Cancellation and refusal are possible where the source asks; deletion may be left
      half done. */
  function RunStep(s: State, io: Io): Option<State> {
    if Resting(s.pc) then None
    else match io
    case Done =>
      if s.pc.Verify? && !OwnedTarget(s) then None else Some(State(Touched(s), After(s), Booked(s)))
    case Partly =>
      if s.pc.Delete? then Some(State(s.disk.Change(DeleteSome), Delete, Booked(s))) else None
    case Refused => if s.pc.Verify? && !OwnedTarget(s) then Some(Goto(s, Threw(NotOwned))) else None
    case Stop => if s.pc.Verify? || s.pc.RenameAside? || s.pc.Delete? then Some(Goto(s, Threw(Cancelled))) else None
    case Failed(took, cleaned) =>
      var disk := if took then Touched(s) else s.disk;
      Some(State(if cleaned && WritesMarker(s.pc) then disk.Change(RemovePart) else disk,
                 Threw(Unavailable),
                 if took && s.pc.Delete? then Booked(s) else s.book))
  }

  function Placed(book: Book, owned: bool): Book {
    book.(next := book.next + 1, owned := if owned then book.owned + {book.next} else book.owned)
  }

  function Take(s: State, e: Event): Option<State> {
    match e
    case Start => if Resting(s.pc) then Some(Goto(s, Inspect)) else None
    case PlaceTree(owned) =>
      var d := s.disk.Live();
      if Resting(s.pc) && d.target.NoTree? && d.detached.NoTree? && d.marker.NoFile?
      then Some(State(s.disk.Change(Place(s.book.next)), s.pc, Placed(s.book, owned)))
      else None
    case Crash(keep) => if keep <= |s.disk.log| then Some(State(s.disk.Crashed(keep), Idle, s.book)) else None
    case Run(io) => RunStep(s, io)
  }

  const EMPTY := Directory(NoTree, NoTree, NoFile, NoFile)
  const INITIAL := State(Disk(EMPTY, []), Idle, Book(0, {}, {}, {}, []))

  /** The state after a history of events, where every event was possible. */
  function History(events: seq<Event>): Option<State> {
    if events == [] then Some(INITIAL)
    else match History(events[..|events| - 1])
      case None => None
      case Some(s) => Take(s, events[|events| - 1])
  }

  // ----- what every state after any history keeps

  /** One directory a crash could leave. */
  ghost predicate Sound(d: Directory, book: Book) {
    && (d.detached.Tree? ==> d.marker == Exact(d.detached.id) && d.target.NoTree?)
    && (d.target.Tree? ==> d.target.whole && d.target.id < book.next && d.target.id !in book.removed)
    && !d.marker.Partial?
    && (d.marker.Exact? ==>
          && d.marker.id in book.verified && d.marker.id !in book.removed && d.marker.id < book.next
          && (d.target.Tree? ==> d.target.id == d.marker.id))
  }

  ghost predicate SoundDisk(disk: Disk, book: Book) {
    forall k | 0 <= k <= |disk.log| :: Sound(disk.Image(k), book)
  }

  ghost predicate BookOk(book: Book) {
    && book.deleted <= book.verified <= book.owned
    && (forall id | id in book.owned :: id < book.next)
    && (forall id | id in book.removed :: id in book.verified && id < book.next)
    && (forall i, j | 0 <= i < j < |book.removed| :: book.removed[i] != book.removed[j])
  }

  predicate Gone(d: Directory) { d.target.NoTree? && d.detached.NoTree? && d.marker.NoFile? }

  /** What the running step knows of the directory. */
  ghost predicate Expects(pc: Pc, d: Directory, book: Book) {
    match pc
    case Idle => true
    case Inspect => true
    case Verify => d.marker.NoFile? && d.detached.NoTree? && d.target.Tree?
    case ClearPart(intent) =>
      if intent then d.marker.Exact? else Ready(d, book)
    case CreateMarker => Ready(d, book)
    case FillMarker => Ready(d, book)
    case RenameMarker => Ready(d, book) && d.part == Exact(d.target.id)
    case SyncMarker => d.marker.Exact?
    case Recheck => d.marker.Exact?
    case RenameAside => d.marker.Exact? && d.target.Tree?
    case SyncAside => d.detached.Tree?
    case Delete => d.detached.Tree?
    case SyncDelete => d.marker.Exact? && d.target.NoTree? && d.detached.NoTree?
    case SyncAbsent => d.marker.Exact? && d.target.NoTree? && d.detached.NoTree?
    case Unmark => d.marker.Exact? && d.target.NoTree? && d.detached.NoTree?
    case SyncUnmark(id) => Gone(d) && id in book.verified && id < book.next && id !in book.removed
    case SyncReplay => Gone(d)
    case Returned(_) => true
    case Threw(f) => f != Conflict
  }

  /** Verified, and about to be marked. */
  ghost predicate Ready(d: Directory, book: Book) {
    d.marker.NoFile? && d.detached.NoTree? && d.target.Tree? && d.target.id in book.verified
  }

  ghost predicate Inv(s: State) {
    SoundDisk(s.disk, s.book) && BookOk(s.book) && Expects(s.pc, s.disk.Live(), s.book)
  }

  // ----- logs

  lemma ImageOfChange(disk: Disk, c: Change, k: nat)
    requires k <= |disk.log| + 1
    ensures disk.Change(c).Image(k) == if k <= |disk.log| then disk.Image(k) else Apply(disk.Live(), c)
  {
    var longer := disk.log + [c];
    if k <= |disk.log| {
      assert longer[..k] == disk.log[..k];
    } else {
      assert longer[..k] == longer && longer[..|longer| - 1] == disk.log == disk.log[..|disk.log|];
    }
  }

  lemma ChangeKeeps(disk: Disk, c: Change, book: Book)
    requires SoundDisk(disk, book) && Sound(Apply(disk.Live(), c), book)
    ensures SoundDisk(disk.Change(c), book) && disk.Change(c).Live() == Apply(disk.Live(), c)
  {
    hide Sound, Apply;
    forall k | 0 <= k <= |disk.log| + 1
      ensures Sound(disk.Change(c).Image(k), book)
    {
      ImageOfChange(disk, c, k);
    }
    ImageOfChange(disk, c, |disk.log| + 1);
  }

  lemma SettledImage(d: Directory)
    ensures Disk(d, []).Live() == d && forall k | 0 <= k <= 0 :: Disk(d, []).Image(k) == d
  {}

  lemma BookGrows(disk: Disk, book: Book, more: Book)
    requires SoundDisk(disk, book)
    requires book.verified <= more.verified && book.next <= more.next && book.removed == more.removed
    ensures SoundDisk(disk, more)
  {
    forall k | 0 <= k <= |disk.log| ensures Sound(disk.Image(k), more) {
      assert Sound(disk.Image(k), book);
    }
  }

  lemma LiveSound(disk: Disk, book: Book)
    requires SoundDisk(disk, book)
    ensures Sound(disk.Live(), book)
  {}

  // ----- every step keeps the invariant

  lemma DoneKeeps(s: State)
    requires Inv(s) && !Resting(s.pc) && (s.pc.Verify? ==> OwnedTarget(s))
    ensures Inv(State(Touched(s), After(s), Booked(s)))
  {
    LiveSound(s.disk, s.book);
    var d := s.disk.Live();
    if IsSync(s.pc) {
      SettledImage(d);
      hide Inspected, Rechecked;
    } else if Effect(s).Some? {
      ChangeKeeps(s.disk, Effect(s).value, s.book);
      BookGrows(Touched(s), s.book, Booked(s));
      hide SoundDisk;
    } else {
      BookGrows(Touched(s), s.book, Booked(s));
      hide SoundDisk;
    }
  }

  lemma FailureKeeps(s: State, took: bool, cleaned: bool)
    requires Inv(s) && !Resting(s.pc)
    ensures Inv(RunStep(s, Failed(took, cleaned)).value)
  {
    LiveSound(s.disk, s.book);
    var d := s.disk.Live();
    var disk := if took then Touched(s) else s.disk;
    if took {
      if IsSync(s.pc) {
        SettledImage(d);
      } else if Effect(s).Some? {
        ChangeKeeps(s.disk, Effect(s).value, s.book);
      }
    }
    assert SoundDisk(disk, s.book);
    if cleaned && WritesMarker(s.pc) {
      LiveSound(disk, s.book);
      ChangeKeeps(disk, RemovePart, s.book);
    }
    hide SoundDisk;
  }

  lemma PartlyKeeps(s: State)
    requires Inv(s) && s.pc.Delete?
    ensures Inv(RunStep(s, Partly).value)
  {
    LiveSound(s.disk, s.book);
    ChangeKeeps(s.disk, DeleteSome, s.book);
    hide SoundDisk;
    BookGrows(s.disk.Change(DeleteSome), s.book, Booked(s));
  }

  lemma CrashKeeps(s: State, keep: nat)
    requires Inv(s) && keep <= |s.disk.log|
    ensures Inv(State(s.disk.Crashed(keep), Idle, s.book))
  {
    SettledImage(s.disk.Image(keep));
  }

  lemma PlaceKeeps(s: State, owned: bool)
    requires Inv(s) && Take(s, PlaceTree(owned)).Some?
    ensures Inv(Take(s, PlaceTree(owned)).value)
  {
    var more := Placed(s.book, owned);
    BookGrows(s.disk, s.book, more);
    LiveSound(s.disk, more);
    ChangeKeeps(s.disk, Place(s.book.next), more);
    hide SoundDisk;
  }

  lemma StepKeeps(s: State, e: Event)
    requires Inv(s) && Take(s, e).Some?
    ensures Inv(Take(s, e).value)
  {
    match e
    case Start =>
    case PlaceTree(owned) => PlaceKeeps(s, owned);
    case Crash(keep) => CrashKeeps(s, keep);
    case Run(io) =>
      match io
      case Done => DoneKeeps(s);
      case Partly => PartlyKeeps(s);
      case Refused =>
      case Stop =>
      case Failed(took, cleaned) => FailureKeeps(s, took, cleaned);
  }

  /** Main result: every state after any number of runs, crashes, failures and restarts is sound, on disk and
      after every possible crash. */
  lemma {:induction false} AlwaysSound(events: seq<Event>)
    requires History(events).Some?
    ensures Inv(History(events).value)
    decreases |events|
  {
    if events == [] {
      SettledImage(EMPTY);
    } else {
      AlwaysSound(events[..|events| - 1]);
      StepKeeps(History(events[..|events| - 1]).value, events[|events| - 1]);
    }
  }

  // ----- what callers rely on

  /** After any history and any crash: a detached tree has its own exact marker beside it, the target is never a
      partly deleted tree, only owned trees are ever deleted or reported removed, no run reports a conflict, each tree is reported
      removed at most once, and a tree reported removed is nowhere on disk. */
  lemma CrashSafety(events: seq<Event>, keep: nat)
    requires History(events).Some? && keep <= |History(events).value.disk.log|
    ensures var s := History(events).value; var d := s.disk.Image(keep);
            && (d.detached.Tree? ==> d.marker == Exact(d.detached.id) && d.target.NoTree?)
            && (d.target.Tree? ==> d.target.whole)
            && s.book.deleted <= s.book.owned && (forall id | id in s.book.removed :: id in s.book.owned)
            && s.pc != Threw(Conflict)
            && (forall i, j | 0 <= i < j < |s.book.removed| :: s.book.removed[i] != s.book.removed[j])
            && (d.target.Tree? ==> d.target.id !in s.book.removed)
            && (d.detached.Tree? ==> d.detached.id !in s.book.removed)
  {
    AlwaysSound(events);
    var s := History(events).value;
    assert Sound(s.disk.Image(keep), s.book);
  }

  /** When a run returns, target, detached tree and marker are durably absent, and nothing is left unsynced. */
  lemma ReturnedMeansGone(events: seq<Event>, e: Event)
    requires History(events).Some? && Take(History(events).value, e).Some?
    requires var t := Take(History(events).value, e).value;
             t.pc.Returned? && t.pc != History(events).value.pc
    ensures var t := Take(History(events).value, e).value;
            t.disk.log == [] && Gone(t.disk.durable)
  {
    AlwaysSound(events);
  }

  /** `removed` is returned exactly for the tree whose marker the run took away, and `replayed` for none. */
  lemma ResultHonest(events: seq<Event>, io: Io)
    requires History(events).Some? && Take(History(events).value, Run(io)).Some?
    requires Take(History(events).value, Run(io)).value.pc.Returned?
    ensures var s, t := History(events).value, Take(History(events).value, Run(io)).value;
            match t.pc.result
            case Removed => s.pc.SyncUnmark? && t.book.removed == s.book.removed + [s.pc.id] && s.pc.id in s.book.owned
            case Replayed => t.book == s.book
  {
    AlwaysSound(events);
  }

  // ----- an undisturbed run

  /** How far a run is from its end. */
  function Rank(pc: Pc): nat {
    match pc
    case Inspect => 13
    case Verify => 12
    case ClearPart(intent) => if intent then 8 else 11
    case CreateMarker => 10
    case FillMarker => 9
    case RenameMarker => 8
    case SyncMarker => 7
    case Recheck => 6
    case RenameAside => 5
    case SyncAside => 4
    case Delete => 3
    case SyncDelete => 2
    case SyncAbsent => 2
    case Unmark => 1
    case SyncUnmark(_) => 0
    case SyncReplay => 0
    case Idle => 14
    case Returned(_) => 14
    case Threw(_) => 14
  }

  /** How a step ends when nothing goes wrong: the ownership check answers truthfully, all else succeeds. */
  function Undisrupted(s: State): Io { if s.pc.Verify? && !OwnedTarget(s) then Refused else Done }

  lemma UndisruptedKeeps(s: State)
    requires Inv(s) && !Resting(s.pc)
    ensures RunStep(s, Undisrupted(s)).Some?
    ensures var t := RunStep(s, Undisrupted(s)).value; Inv(t) && (Resting(t.pc) || Rank(t.pc) < Rank(s.pc))
  {
    if Undisrupted(s).Done? {
      DoneKeeps(s);
    }
    hide SoundDisk;
  }

  /** Runs without interruption from a step of a run to its end. */
  ghost function Undisturbed(s: State): State
    requires Inv(s) && !Resting(s.pc)
    decreases Rank(s.pc)
  {
    UndisruptedKeeps(s);
    var t := RunStep(s, Undisrupted(s)).value;
    if Resting(t.pc) then t else Undisturbed(t)
  }

  /** A target that is not owned, with no marker that an earlier run could have left after verifying it. */
  predicate Foreign(s: State) {
    s.disk.Live().target.Tree? && s.disk.Live().marker.NoFile? && !OwnedTarget(s)
  }

  /** Whatever happened before, the next undisturbed run never reports a conflict: it succeeds, except that it
      refuses a target that is not owned, and then it has changed nothing. */
  lemma NextRunSucceeds(events: seq<Event>)
    requires History(events).Some? && Resting(History(events).value.pc)
    ensures var s := Goto(History(events).value, Inspect);
            && Inv(s)
            && (Undisturbed(s).pc.Returned? <==> !Foreign(s))
            && (Foreign(s) ==> Undisturbed(s) == Goto(s, Threw(NotOwned)))
  {
    AlwaysSound(events);
    var s := Goto(History(events).value, Inspect);
    LiveSound(s.disk, s.book);
    if Foreign(s) {
      ForeignRefused(s);
    } else {
      UndisturbedReturns(s);
    }
  }

  lemma ForeignRefused(s: State)
    requires Inv(s) && s.pc.Inspect? && Foreign(s)
    ensures Undisturbed(s) == Goto(s, Threw(NotOwned))
  {
    LiveSound(s.disk, s.book);
    hide SoundDisk;
    UndisruptedKeeps(s);
    var t := RunStep(s, Undisrupted(s)).value;
    assert t == Goto(s, Verify);
    UndisruptedKeeps(t);
    assert RunStep(t, Undisrupted(t)).value == Goto(s, Threw(NotOwned));
  }

  /** Past the ownership check, and before it with nothing foreign, a run goes through. */
  lemma {:induction false} UndisturbedReturns(s: State)
    requires Inv(s) && !Resting(s.pc) && ((s.pc.Inspect? || s.pc.Verify?) ==> !Foreign(s))
    ensures Undisturbed(s).pc.Returned?
    decreases Rank(s.pc)
  {
    UndisruptedKeeps(s);
    GoesOn(s);
    hide RunStep, Inv;
    var t := RunStep(s, Undisrupted(s)).value;
    if !Resting(t.pc) {
      UndisturbedReturns(t);
    }
  }

  lemma GoesOn(s: State)
    requires Inv(s) && !Resting(s.pc) && ((s.pc.Inspect? || s.pc.Verify?) ==> !Foreign(s))
    requires RunStep(s, Undisrupted(s)).Some?
    ensures var t := RunStep(s, Undisrupted(s)).value;
            (if Resting(t.pc) then t.pc.Returned? else t.pc.Verify? ==> !Foreign(t)) && !t.pc.Inspect?
  {
    LiveSound(s.disk, s.book);
    hide SoundDisk;
  }

  /** What is known of the live directory at any moment of a history. */
  lemma Known(events: seq<Event>, s: State)
    requires History(events) == Some(s)
    ensures Sound(s.disk.Live(), s.book) && Expects(s.pc, s.disk.Live(), s.book)
  {
    AlwaysSound(events);
    LiveSound(s.disk, s.book);
  }

  lemma StartRun(events: seq<Event>, s: State)
    requires History(events) == Some(s) && Resting(s.pc)
    ensures Take(s, Start) == Some(Goto(s, Inspect))
  {}

  /** A step never decides who owns what. */
  lemma StepBook(s: State, io: Io)
    ensures RunStep(s, io).Some? ==>
              RunStep(s, io).value.book.owned == s.book.owned && RunStep(s, io).value.book.next == s.book.next
  {}

  lemma SyncedDisk(disk: Disk)
    ensures disk.Synced().log == [] && disk.Synced().durable == disk.Live() == disk.Synced().Live()
  {
    SettledImage(disk.Live());
  }

  // ----- the run as the source writes it

  datatype Outcome = Ok(result: Result) | Err(failure: Failure)

  /** The parent directory as system calls see it, with the history that led to it. */
  class Volume {
    var live: Directory
    /** The trees the caller's ownership check accepts. */
    var owned: set<TreeId>
    var next: TreeId
    ghost var history: seq<Event>
    ghost var state: State

    ghost predicate Valid()
      reads this
    {
      History(history) == Some(state) && state.disk.Live() == live
      && state.book.owned == owned && state.book.next == next
    }

    constructor ()
      ensures Valid() && history == []
    {
      live, owned, next, history, state := EMPTY, {}, 0, [], INITIAL;
    }

    ghost method Record(e: Event)
      requires History(history) == Some(state) && Take(state, e).Some?
      modifies this`history, this`state
      ensures history == old(history) + [e] && History(history) == Some(state) && state == Take(old(state), e).value
    {
      history := history + [e];
      assert history[..|history| - 1] == old(history);
      state := Take(state, e).value;
    }

    /** Somebody places a tree at the target, owned or not. */
    method PlaceAt(isOwned: bool) returns (id: TreeId)
      requires Valid() && Resting(state.pc) && Gone(live)
      modifies this
      ensures Valid() && old(history) < history && state.pc == old(state).pc
      ensures live == Apply(old(live), Place(id)) && owned == old(owned) + (if isOwned then {id} else {})
      ensures id !in old(owned)
    {
      AlwaysSound(history);
      id := next;
      ImageOfChange(state.disk, Place(id), |state.disk.log| + 1);
      Record(PlaceTree(isOwned));
      live := Apply(live, Place(id));
      owned, next := if isOwned then owned + {id} else owned, next + 1;
    }

    /** A step that changes nothing on disk. */
    ghost method Think()
      requires Valid() && !Resting(state.pc) && Touched(state) == state.disk && (state.pc.Verify? ==> OwnedTarget(state))
      modifies this`history, this`state
      ensures Valid() && old(history) < history
      ensures state == State(old(state).disk, After(old(state)), Booked(old(state)))
    {
      Record(Run(Done));
    }

    /** One system call that changes the directory; with `faults` it may fail, with or without effect. */
    method Call(c: Change, inWriter: bool, faults: bool) returns (ok: bool)
      requires Valid() && Effect(state) == Some(c) && !IsSync(state.pc) && inWriter == WritesMarker(state.pc)
      requires !Resting(state.pc)
      modifies this
      ensures Valid() && old(history) < history && (!faults ==> ok)
      ensures ok ==> state == State(old(state).disk.Change(c), After(old(state)), Booked(old(state)))
      ensures ok ==> live == Apply(old(live), c)
      ensures !ok ==> state.pc == Threw(Unavailable)
    {
      hide Booked, After;
      var good: bool, took: bool, cleaned: bool := *, *, *;
      StepBook(state, Done);
      StepBook(state, Failed(took, cleaned));
      ImageOfChange(state.disk, c, |state.disk.log| + 1);
      if !faults || good {
        Record(Run(Done));
        live, ok := Apply(live, c), true;
      } else {
        ghost var disk := if took then state.disk.Change(c) else state.disk;
        ImageOfChange(disk, RemovePart, |disk.log| + 1);
        Record(Run(Failed(took, cleaned)));
        live := if took then Apply(live, c) else live;
        live := if cleaned && inWriter then Apply(live, RemovePart) else live;
        ok := false;
      }
    }

    /** Syncing the parent directory. */
    method Sync(inWriter: bool, faults: bool) returns (ok: bool)
      requires Valid() && IsSync(state.pc) && inWriter == WritesMarker(state.pc)
      modifies this
      ensures Valid() && old(history) < history && (!faults ==> ok)
      ensures ok ==> state == State(old(state).disk.Synced(), After(old(state)), Booked(old(state)))
      ensures ok ==> live == old(live) && state.disk.log == [] && state.disk.durable == live
      ensures !ok ==> state.pc == Threw(Unavailable)
    {
      hide Booked, After;
      var good: bool, took: bool, cleaned: bool := *, *, *;
      StepBook(state, Done);
      StepBook(state, Failed(took, cleaned));
      SyncedDisk(state.disk);
      SettledImage(live);
      if !faults || good {
        Record(Run(Done));
        ok := true;
      } else {
        ghost var disk := if took then state.disk.Synced() else state.disk;
        ImageOfChange(disk, RemovePart, |disk.log| + 1);
        Record(Run(Failed(took, cleaned)));
        live := if cleaned && inWriter then Apply(live, RemovePart) else live;
        ok := false;
      }
    }

    /** The caller's chance to stop the run. */
    method MayContinue(faults: bool) returns (ok: bool)
      requires Valid() && (state.pc.Verify? || state.pc.RenameAside? || state.pc.Delete?)
      modifies this`history, this`state
      ensures Valid() && old(history) <= history && (!faults ==> ok) && (!ok ==> old(history) < history)
      ensures ok ==> state == old(state)
      ensures !ok ==> state.pc == Threw(Cancelled)
    {
      var go: bool := *;
      ok := !faults || go;
      if !ok {
        Record(Run(Stop));
      }
    }

    /** The caller's ownership check: it looks at the target alone, and throws unless it is owned. */
    method AssertTargetOwned() returns (ok: bool)
      requires Valid() && state.pc.Verify?
      modifies this`history, this`state
      ensures Valid() && old(history) <= history && (!ok ==> old(history) < history)
      ensures ok <==> OwnedTarget(old(state))
      ensures ok ==> state == old(state)
      ensures !ok ==> state == Goto(old(state), Threw(NotOwned))
    {
      ok := live.target.Tree? && live.target.id in owned;
      if !ok {
        Record(Run(Refused));
      }
    }

    /** Removes a leftover partial marker, when there is one. */
    method RemoveOwnedPartial(faults: bool) returns (ok: bool)
      requires Valid() && state.pc.ClearPart?
      modifies this
      ensures Valid() && old(history) < history && (!faults ==> ok)
      ensures ok ==> state.pc == After(old(state)) && state.book == old(state).book
      ensures ok ==> live == old(live).(part := NoFile)
      ensures !ok ==> state.pc == Threw(Unavailable)
    {
      if live.part.NoFile? {
        Think();
        ok := true;
      } else {
        ok := Call(RemovePart, false, faults);
      }
    }

    /** Writes the marker beside the tree: part file, content, rename, directory sync. */
    method WriteMarker(faults: bool) returns (ok: bool)
      requires Valid() && state.pc == ClearPart(false) && live.target.Tree?
      modifies this
      ensures Valid() && old(history) < history && (!faults ==> ok)
      ensures ok ==> state.pc.Recheck?
      ensures ok ==> live == old(live).(part := NoFile, marker := Exact(old(live).target.id))
      ensures !ok ==> state.pc == Threw(Unavailable)
    {
      hide History, Take, RunStep, SoundDisk, ApplyAll, Booked, Undisrupted;
      ok := RemoveOwnedPartial(faults);
      if !ok { return; }
      ok := Call(CreatePart, true, faults);
      if !ok { return; }
      ok := Call(FillPart(live.target.id), true, faults);
      if !ok { return; }
      ok := Call(PublishPart, true, faults);
      if !ok { return; }
      ok := Sync(true, faults);
    }

    /** `removeDurableOwnedTreeExclusive`: the events it adds to the history are those of one run, and where
        nothing goes wrong it returns with everything durably gone. A target that is not owned and bears no marker
        is refused, with the directory and its unsynced changes as they were. */
    method RemoveDurableOwnedTree(faults: bool) returns (r: Outcome)
      requires Valid() && Resting(state.pc)
      modifies this
      ensures Valid() && old(history) < history
      ensures r.Ok? ==> state.pc == Returned(r.result) && Gone(live) && Gone(state.disk.durable) && state.disk.log == []
      ensures r.Err? ==> state.pc == Threw(r.failure) && r.failure != Conflict
      ensures !faults ==> (r.Ok? <==> !Foreign(old(state)))
      ensures r == Err(NotOwned) <==> Foreign(old(state))
      ensures Foreign(old(state)) ==> live == old(live) && state.disk == old(state).disk
    {
      hide History, Take, RunStep, SoundDisk, ApplyAll, After, Touched, Effect, Booked;
      StartRun(history, state);
      Record(Start);
      var failure, replayed := MarkIntent(faults);
      if failure.Some? { return Err(failure.value); }
      if replayed { return Ok(Replayed); }
      var detached;
      failure, detached := Detach(faults);
      if failure.Some? { return Err(failure.value); }
      if detached {
        failure := DeleteDetached(faults);
        if failure.Some? { return Err(failure.value); }
      }
      failure := Unmark(faults);
      r := if failure.Some? then Err(failure.value) else Ok(Removed);
    }

    /** The first half: nothing to do, or the exact marker in place. */
    method MarkIntent(faults: bool) returns (failure: Option<Failure>, replayed: bool)
      requires Valid() && state.pc.Inspect?
      modifies this
      ensures Valid() && old(history) < history && (!faults && !Foreign(old(state)) ==> failure.None?)
      ensures failure == Some(NotOwned) <==> Foreign(old(state))
      ensures Foreign(old(state)) ==> live == old(live) && state.disk == old(state).disk
      ensures failure.None? && replayed ==>
                state.pc == Returned(Replayed) && Gone(live) && Gone(state.disk.durable) && state.disk.log == []
      ensures failure.None? && !replayed ==> state.pc.Recheck?
      ensures failure.Some? ==> state.pc == Threw(failure.value) && failure.value != Conflict
    {
      hide History, Take, RunStep, SoundDisk, ApplyAll;
      replayed := false;
      var intentExists := live.marker.Exact?;
      var conflict := live.marker.Partial? || (live.target.Tree? && live.detached.Tree?)
                      || (!intentExists && live.detached.Tree?);
      Think();
      Known(history, state);
      if conflict {
        return Some(Conflict), false;
      }
      if intentExists {
        var cleared := RemoveOwnedPartial(faults);
        failure := if cleared then None else Some(Unavailable);
      } else if live.target.NoTree? {
        var synced := Sync(false, faults);
        failure, replayed := if synced then None else Some(Unavailable), true;
      } else {
        failure := MarkOwned(faults);
      }
    }

    /** Verifies ownership, then writes the marker. */
    method MarkOwned(faults: bool) returns (failure: Option<Failure>)
      requires Valid() && state.pc.Verify? && live.target.Tree?
      modifies this
      ensures Valid() && old(history) < history && (!faults && OwnedTarget(old(state)) ==> failure.None?)
      ensures failure.None? ==> state.pc.Recheck?
      ensures failure.Some? ==> state.pc == Threw(failure.value) && failure.value != Conflict
      ensures failure == Some(NotOwned) <==> !OwnedTarget(old(state))
      ensures !OwnedTarget(old(state)) ==> live == old(live) && state.disk == old(state).disk
    {
      hide History, Take, RunStep, ApplyAll;
      var isOwned := AssertTargetOwned();
      if !isOwned { return Some(NotOwned); }
      var go := MayContinue(faults);
      if !go { return Some(Cancelled); }
      Think();
      var marked := WriteMarker(faults);
      failure := if marked then None else Some(Unavailable);
    }

    /** Moves the target aside when it is still in place. */
    method Detach(faults: bool) returns (failure: Option<Failure>, detached: bool)
      requires Valid() && state.pc.Recheck?
      modifies this
      ensures Valid() && old(history) < history && (!faults ==> failure.None?)
      ensures failure.None? ==> if detached then state.pc.Delete? && live.detached.Tree? else state.pc.SyncAbsent?
      ensures failure.Some? ==> state.pc == Threw(failure.value) && failure.value != Conflict && failure.value != NotOwned
    {
      hide History, Take, RunStep, SoundDisk, ApplyAll;
      Known(history, state);
      var targetExists := live.target.Tree?;
      detached := live.detached.Tree?;
      Think();
      if targetExists && detached {
        return Some(Conflict), detached;
      }
      if targetExists {
        var go := MayContinue(faults);
        if !go { return Some(Cancelled), detached; }
        var moved := Call(MoveAside, false, faults);
        if !moved { return Some(Unavailable), detached; }
        var synced := Sync(false, faults);
        if !synced { return Some(Unavailable), detached; }
        detached := true;
      }
      failure := None;
    }

    /** Syncs the deletion, removes the marker and syncs again. */
    method Unmark(faults: bool) returns (failure: Option<Failure>)
      requires Valid() && (state.pc.SyncDelete? || state.pc.SyncAbsent?)
      modifies this
      ensures Valid() && old(history) < history && (!faults ==> failure.None?)
      ensures failure.None? ==>
                state.pc == Returned(Removed) && Gone(live) && Gone(state.disk.durable) && state.disk.log == []
      ensures failure.Some? ==> state.pc == Threw(failure.value) && failure.value != Conflict && failure.value != NotOwned
    {
      hide History, Take, RunStep, SoundDisk, ApplyAll;
      var synced := Sync(false, faults);
      if !synced { return Some(Unavailable); }
      Known(history, state);
      var unmarked := Call(RemoveMarker, false, faults);
      if !unmarked { return Some(Unavailable); }
      Known(history, state);
      var gone := Sync(false, faults);
      failure := if gone then None else Some(Unavailable);
    }

    method DeleteSomeEntries()
      requires Valid() && state.pc.Delete? && live.detached.Tree?
      modifies this
      ensures Valid() && old(history) < history && state.pc.Delete? && live.detached.Tree?
    {
      ImageOfChange(state.disk, DeleteSome, |state.disk.log| + 1);
      Record(Run(Partly));
      live := Apply(live, DeleteSome);
    }

    /** Recursive deletion of the detached tree, which a failure can leave half done. */
    method DeleteDetached(faults: bool) returns (failure: Option<Failure>)
      requires Valid() && state.pc.Delete? && live.detached.Tree?
      modifies this
      ensures Valid() && old(history) < history && (!faults ==> failure.None?)
      ensures failure.None? ==> state.pc.SyncDelete? && live.detached.NoTree?
      ensures failure.Some? ==> state.pc == Threw(failure.value) && failure.value != Conflict && failure.value != NotOwned
    {
      hide History, Take, RunStep, SoundDisk, ApplyAll;
      var go := MayContinue(faults);
      if !go { return Some(Cancelled); }
      var partly: bool := *;
      if partly {
        DeleteSomeEntries();
      }
      var deleted := Call(DeleteAll, false, faults);
      failure := if deleted then None else Some(Unavailable);
    }
  }
}
