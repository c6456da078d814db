/** Publishing an inactive repository and discarding it again. A repository lives in a staged directory until one
    atomic rename moves it to its published place; discarding runs the durable removal at either place. Both
    parent directories and the record inside the repository share one ordered log of unsynced changes. */
module Publication {
  import opened Common
  import R = DurableRemoval

  datatype Site = Staged | Published

  /** Both parents, the publication record inside the repository, and whether the directories above exist.
      `existing` is bookkeeping: the repository placed and not yet deleted. */
  datatype World = World(staged: R.Directory, published: R.Directory, record: R.File, recordPart: R.File,
                         operation: bool, canonical: bool, existing: Option<R.TreeId>) {
    function At(site: Site): R.Directory {
      if site.Staged? then staged else published
    }

    function With(site: Site, d: R.Directory): World {
      if site.Staged? then this.(staged := d) else this.(published := d)
    }
  }

  datatype Change =
    | Stage(id: R.TreeId)
    | In(site: Site, change: R.Change)
    | DropPart | CreatePart | FillPart(id: R.TreeId) | RenamePart
    | MakeCanonical
    | Move

  function Apply(w: World, c: Change): World {
    match c
    case Stage(id) =>
      w.(staged := R.Apply(w.staged, R.Place(id)), operation := true, record := R.NoFile, recordPart := R.NoFile,
         existing := Some(id))
    case In(site, change) =>
      var next := w.With(site, R.Apply(w.At(site), change));
      if w.At(site).detached.NoTree? then next
      else if change.DeleteSome? then next.(record := R.NoFile, recordPart := R.NoFile)
      else if change.DeleteAll? then next.(record := R.NoFile, recordPart := R.NoFile, existing := None)
      else next
    case DropPart => w.(recordPart := R.NoFile)
    case CreatePart => w.(recordPart := R.Partial)
    case FillPart(id) => w.(recordPart := R.Exact(id))
    case RenamePart => w.(record := w.recordPart, recordPart := R.NoFile)
    case MakeCanonical => w.(canonical := true)
    case Move =>
      w.(staged := w.staged.(target := R.NoTree), published := w.published.(target := w.staged.target))
  }

  function ApplyAll(w: World, changes: seq<Change>): World {
    if changes == [] then w else Apply(ApplyAll(w, changes[..|changes| - 1]), changes[|changes| - 1])
  }

  datatype Disk = Disk(durable: World, log: seq<Change>) {
    /** What a crash that keeps `k` unsynced changes leaves. */
    function Image(k: nat): World
      requires k <= |log|
    {
      ApplyAll(durable, log[..k])
    }

    function Live(): World { Image(|log|) }

    function Change(c: Change): Disk { Disk(durable, log + [c]) }

    function Synced(): Disk { Disk(Live(), []) }

    function Crashed(k: nat): Disk
      requires k <= |log|
    {
      Disk(Image(k), [])
    }
  }

  // ----- the two operations, step by step

  datatype Result = Discarded(removal: R.Result) | Kept(id: R.TreeId)

  datatype Failure = InvalidCheckpoint | Unavailable | Aborted | Removal(failure: R.Failure)

  datatype Pc =
    | Idle
    | LookDiscard
    | Removing(site: Site, inner: R.Pc, sweep: bool, removed: bool)
    | SyncNothing
    | LookPublish
    | CheckPublished | SyncPublished
    | VerifyStaged
    | ClearRecord(exact: bool)
    | OpenRecord | FillRecord | RenameRecord | SyncRecord(written: bool)
    | CanonicalDirectory | SyncRoot
    | MoveOver | SyncMoved | CheckMoved
    | Returned(result: Result)
    | Threw(failure: Failure)

  datatype State = State(disk: Disk, pc: Pc, book: R.Book)

  datatype Event = StartPublish | StartDiscard | StageRepository(owned: bool) | Crash(keep: nat) | Run(io: R.Io)

  predicate Resting(pc: Pc) { pc.Idle? || pc.Returned? || pc.Threw? }

  function Goto(s: State, pc: Pc): State { s.(pc := pc) }

  /** Where discarding starts, from one look at both places. */
  function DiscardFrom(w: World): Pc {
    if w.staged.target.Tree? && w.published.target.Tree? then Threw(InvalidCheckpoint)
    else if w.staged.target.Tree? then Removing(Staged, R.Inspect, false, false)
    else if w.published.target.Tree? then Removing(Published, R.Inspect, false, false)
    else if w.operation then Removing(Staged, R.Inspect, true, false)
    else if w.canonical then Removing(Published, R.Inspect, true, false)
    else SyncNothing
  }

  /** Where the durable removal at one place leads. */
  function RemovalLeads(w: World, pc: Pc, inner: R.Pc): Pc
    requires pc.Removing?
  {
    match inner
    case Threw(f) => Threw(Removal(f))
    case Returned(result) =>
      var removed := pc.removed || result.Removed?;
      if !pc.sweep then Returned(Discarded(result))
      else if pc.site.Staged? && w.canonical then Removing(Published, R.Inspect, true, removed)
      else if removed then Returned(Discarded(R.Removed))
      else SyncNothing
    case _ => pc.(inner := inner)
  }

  function PublishFrom(w: World): Pc {
    if w.staged.target.Tree? == w.published.target.Tree? then Threw(InvalidCheckpoint)
    else if w.published.target.Tree? then CheckPublished
    else VerifyStaged
  }

  /** The change a publishing step makes, where it makes one. */
  function Effect(s: State): Option<Change> {
    var w := s.disk.Live();
    match s.pc
    case ClearRecord(_) => if w.recordPart == R.NoFile then None else Some(DropPart)
    case OpenRecord => Some(CreatePart)
    case FillRecord => if w.staged.target.Tree? then Some(FillPart(w.staged.target.id)) else None
    case RenameRecord => Some(RenamePart)
    case CanonicalDirectory => if w.canonical then None else Some(MakeCanonical)
    case MoveOver => Some(Move)
    case _ => None
  }

  predicate IsSync(pc: Pc) {
    pc.SyncNothing? || pc.SyncPublished? || pc.SyncRecord? || pc.SyncRoot? || pc.SyncMoved?
  }

  function Confirmed(w: World): Pc {
    if w.published.target.Tree? && w.record == R.Exact(w.published.target.id)
    then Returned(Kept(w.published.target.id)) else Threw(InvalidCheckpoint)
  }

  /** Where a step outside a removal goes when it succeeds. */
  function After(s: State): Pc {
    var w := s.disk.Live();
    match s.pc
    case LookDiscard => DiscardFrom(w)
    case SyncNothing => Returned(Discarded(R.Replayed))
    case LookPublish => PublishFrom(w)
    case CheckPublished => if Confirmed(w).Returned? then SyncPublished else Threw(InvalidCheckpoint)
    case SyncPublished => Confirmed(w)
    case VerifyStaged =>
      if w.record.NoFile? then ClearRecord(false)
      else if w.staged.target.Tree? && w.record == R.Exact(w.staged.target.id) then ClearRecord(true)
      else Threw(InvalidCheckpoint)
    case ClearRecord(exact) => if exact then SyncRecord(false) else OpenRecord
    case OpenRecord => FillRecord
    case FillRecord => RenameRecord
    case RenameRecord => SyncRecord(true)
    case SyncRecord(_) => CanonicalDirectory
    case CanonicalDirectory => SyncRoot
    case SyncRoot => MoveOver
    case MoveOver => SyncMoved
    case SyncMoved => CheckMoved
    case CheckMoved => Confirmed(w)
    case _ => s.pc
  }

  function Touched(s: State): Disk {
    if IsSync(s.pc) then s.disk.Synced()
    else match Effect(s) case None => s.disk case Some(c) => s.disk.Change(c)
  }

  predicate WritesRecord(pc: Pc) {
    pc.OpenRecord? || pc.FillRecord? || pc.RenameRecord? || pc == SyncRecord(true)
  }

  /** The staged repository bears the marker of its attempt. */
  predicate OwnedStaged(s: State) {
    s.disk.Live().staged.target.Tree? && s.disk.Live().staged.target.id in s.book.owned
  }

  /** The attempt marker is demanded before anything is written; further checks may refuse as well. */
  function OuterStep(s: State, io: R.Io): Option<State>
    requires !Resting(s.pc) && !s.pc.Removing?
  {
    match io
    case Done => if s.pc.VerifyStaged? && !OwnedStaged(s) then None else Some(State(Touched(s), After(s), s.book))
    case Partly => None
    case Refused =>
      if s.pc.CheckPublished? || s.pc.VerifyStaged? || s.pc.CheckMoved? then Some(Goto(s, Threw(InvalidCheckpoint)))
      else None
    case Stop =>
      if s.pc.VerifyStaged? || s.pc.CanonicalDirectory? || s.pc.MoveOver? then Some(Goto(s, Threw(Aborted))) else None
    case Failed(took, cleaned) =>
      var disk := if took then Touched(s) else s.disk;
      if s.pc.MoveOver? && disk.Live().published.target.Tree? then Some(State(disk, SyncMoved, s.book))
      else Some(State(if cleaned && WritesRecord(s.pc) then disk.Change(DropPart) else disk,
                      Threw(Unavailable), s.book))
  }

  /** The durable removal as it sees one place. */
  function View(s: State): R.State
    requires s.pc.Removing?
  {
    R.State(R.Disk(s.disk.Live().At(s.pc.site), []), s.pc.inner, s.book)
  }

  function Lifted(disk: Disk, site: Site, changes: seq<R.Change>): Disk
    decreases |changes|
  {
    if changes == [] then disk
    else Lifted(disk, site, changes[..|changes| - 1]).Change(In(site, changes[|changes| - 1]))
  }

  /** Whether a step of the removal ends with the directory synced. */
  predicate Flushes(pc: R.Pc, io: R.Io) {
    R.IsSync(pc) && (io.Done? || (io.Failed? && io.took))
  }

  function Carried(s: State, io: R.Io, t: R.State): State
    requires s.pc.Removing?
  {
    var disk := Lifted(if Flushes(s.pc.inner, io) then s.disk.Synced() else s.disk, s.pc.site, t.disk.log);
    State(disk, RemovalLeads(disk.Live(), s.pc, t.pc), t.book.(removed := []))
  }

  function InnerStep(s: State, io: R.Io): Option<State>
    requires s.pc.Removing?
  {
    match R.RunStep(View(s), io)
    case None => None
    case Some(t) => Some(Carried(s, io, t))
  }

  function Take(s: State, e: Event): Option<State> {
    match e
    case StartPublish => if Resting(s.pc) then Some(Goto(s, LookPublish)) else None
    case StartDiscard => if Resting(s.pc) then Some(Goto(s, LookDiscard)) else None
    case StageRepository(owned) =>
      if Resting(s.pc) && R.Gone(s.disk.Live().staged) && R.Gone(s.disk.Live().published)
      then Some(State(s.disk.Change(Stage(s.book.next)), s.pc, R.Placed(s.book, owned)))
      else None
    case Crash(keep) => if keep <= |s.disk.log| then Some(State(s.disk.Crashed(keep), Idle, s.book)) else None
    case Run(io) =>
      if Resting(s.pc) then None else if s.pc.Removing? then InnerStep(s, io) else OuterStep(s, io)
  }

  const NOWHERE := World(R.EMPTY, R.EMPTY, R.NoFile, R.NoFile, false, false, None)
  const INITIAL := State(Disk(NOWHERE, []), Idle, R.Book(0, {}, {}, {}, []))

  /** The state after a history of events, where every event was possible. */
  function History(events: seq<Event>): Option<State> {
    if events == [] then Some(INITIAL)
    else match History(events[..|events| - 1])
      case None => None
      case Some(s) => Take(s, events[|events| - 1])
  }

  // ----- what every state after any history keeps

  ghost predicate Empty(d: R.Directory) { d.target.NoTree? && d.detached.NoTree? }

  ghost predicate Holds(d: R.Directory, id: R.TreeId) {
    (d.target.Tree? != d.detached.Tree?) && (d.target.Tree? ==> d.target.id == id)
    && (d.detached.Tree? ==> d.detached.id == id)
  }

  /** The repository that exists is at exactly one of the four places; one that does not is at none. */
  ghost predicate OneCopy(w: World) {
    match w.existing
    case None => Empty(w.staged) && Empty(w.published)
    case Some(id) => (Holds(w.staged, id) && Empty(w.published)) || (Empty(w.staged) && Holds(w.published, id))
  }

  /** One world a crash could leave. */
  ghost predicate Sound(w: World, book: R.Book) {
    && R.Sound(w.staged, book) && R.Sound(w.published, book)
    && OneCopy(w)
    && (w.published.target.Tree? ==>
          w.record == R.Exact(w.published.target.id) && w.published.target.id in book.owned)
    && !w.record.Partial?
    && (w.record.Exact? && w.staged.target.Tree? ==>
          w.record.id == w.staged.target.id && w.staged.target.id in book.owned)
    && (w.published.marker.Exact? ==> Empty(w.staged))
    && (w.staged != R.EMPTY ==> w.operation)
    && (w.published != R.EMPTY ==> w.canonical)
  }

  ghost predicate SoundDisk(disk: Disk, book: R.Book) {
    forall k | 0 <= k <= |disk.log| :: Sound(disk.Image(k), book)
  }

  ghost predicate Expects(pc: Pc, disk: Disk, book: R.Book) {
    var w := disk.Live();
    match pc
    case Removing(site, inner, sweep, _) =>
      && !R.Resting(inner)
      && R.Expects(inner, w.At(site), book)
      && (if site.Staged? then w.operation else w.canonical && Empty(w.staged))
      && (site.Staged? ==> w.published.target.NoTree?)
      && (site.Staged? && !sweep ==> R.Gone(w.published))
      && (sweep && site.Published? ==> R.Gone(w.staged))
    case SyncNothing => R.Gone(w.staged) && R.Gone(w.published)
    case CheckPublished => w.published.target.Tree?
    case SyncPublished => w.published.target.Tree?
    case VerifyStaged => w.staged.target.Tree?
    case ClearRecord(exact) => w.staged.target.Tree? && w.staged.target.id in book.owned && w.record.Exact? == exact
    case OpenRecord => w.staged.target.Tree? && w.staged.target.id in book.owned && w.record.NoFile?
    case FillRecord => w.staged.target.Tree? && w.staged.target.id in book.owned && w.record.NoFile?
    case RenameRecord => w.staged.target.Tree? && w.staged.target.id in book.owned && w.recordPart == R.Exact(w.staged.target.id)
    case SyncRecord(_) => w.staged.target.Tree? && w.record.Exact?
    case CanonicalDirectory => w.staged.target.Tree? && w.record.Exact?
    case SyncRoot => w.staged.target.Tree? && w.record.Exact? && w.canonical
    case MoveOver => w.staged.target.Tree? && w.record.Exact? && w.canonical
    case SyncMoved => w.published.target.Tree?
    case CheckMoved => w.published.target.Tree? && disk.log == []
    case _ => true
  }

  ghost predicate Inv(s: State) {
    && SoundDisk(s.disk, s.book) && R.BookOk(s.book) && s.book.removed == []
    && Expects(s.pc, s.disk, s.book)
  }

  // ----- logs

  lemma ImageOfChange(disk: Disk, c: Change, k: nat)
    requires k <= |disk.log| + 1
    ensures disk.Change(c).Image(k) == if k <= |disk.log| then disk.Image(k) else Apply(disk.Live(), c)
  {
    var longer := disk.log + [c];
    if k <= |disk.log| {
      assert longer[..k] == disk.log[..k];
    } else {
      assert longer[..k] == longer && longer[..|longer| - 1] == disk.log == disk.log[..|disk.log|];
    }
  }

  lemma LiveOfChange(disk: Disk, c: Change)
    ensures disk.Change(c).Live() == Apply(disk.Live(), c)
  {
    ImageOfChange(disk, c, |disk.log| + 1);
  }

  lemma ChangeKeeps(disk: Disk, c: Change, book: R.Book)
    requires SoundDisk(disk, book) && Sound(Apply(disk.Live(), c), book)
    ensures SoundDisk(disk.Change(c), book) && disk.Change(c).Live() == Apply(disk.Live(), c)
  {
    hide Sound, Apply;
    forall k | 0 <= k <= |disk.log| + 1
      ensures Sound(disk.Change(c).Image(k), book)
    {
      ImageOfChange(disk, c, k);
    }
    ImageOfChange(disk, c, |disk.log| + 1);
  }

  lemma SettledImage(w: World)
    ensures Disk(w, []).Live() == w && forall k | 0 <= k <= 0 :: Disk(w, []).Image(k) == w
  {}

  lemma LiveSound(disk: Disk, book: R.Book)
    requires SoundDisk(disk, book)
    ensures Sound(disk.Live(), book)
  {}

  lemma SyncKeeps(disk: Disk, book: R.Book)
    requires SoundDisk(disk, book)
    ensures SoundDisk(disk.Synced(), book) && disk.Synced().Live() == disk.Live()
  {
    SettledImage(disk.Live());
  }

  lemma BookGrows(disk: Disk, book: R.Book, more: R.Book)
    requires SoundDisk(disk, book)
    requires book.verified <= more.verified && book.owned <= more.owned
    requires book.next <= more.next && book.removed == more.removed == []
    ensures SoundDisk(disk, more)
  {
    forall k | 0 <= k <= |disk.log| ensures Sound(disk.Image(k), more) {
      assert Sound(disk.Image(k), book);
    }
  }

  // ----- publishing steps keep the invariant

  lemma EffectSound(s: State)
    requires Sound(s.disk.Live(), s.book) && Expects(s.pc, s.disk, s.book) && !s.pc.Removing?
    ensures Effect(s).Some? ==> Sound(Apply(s.disk.Live(), Effect(s).value), s.book)
  {}

  lemma TouchedKeeps(s: State)
    requires Inv(s) && !s.pc.Removing?
    ensures SoundDisk(Touched(s), s.book)
    ensures Touched(s).Live() == if Effect(s).Some? then Apply(s.disk.Live(), Effect(s).value) else s.disk.Live()
  {
    LiveSound(s.disk, s.book);
    EffectSound(s);
    hide Sound, Apply, Expects;
    if IsSync(s.pc) {
      SyncKeeps(s.disk, s.book);
    } else if Effect(s).Some? {
      ChangeKeeps(s.disk, Effect(s).value, s.book);
    }
  }

  lemma DoneKeeps(s: State)
    requires Inv(s) && !Resting(s.pc) && !s.pc.Removing? && (s.pc.VerifyStaged? ==> OwnedStaged(s))
    ensures Inv(State(Touched(s), After(s), s.book))
  {
    TouchedKeeps(s);
    LiveSound(s.disk, s.book);
    hide SoundDisk;
  }

  lemma FailureKeeps(s: State, took: bool, cleaned: bool)
    requires Inv(s) && !Resting(s.pc) && !s.pc.Removing?
    ensures Inv(OuterStep(s, R.Failed(took, cleaned)).value)
  {
    TouchedKeeps(s);
    var disk := if took then Touched(s) else s.disk;
    LiveSound(disk, s.book);
    if cleaned && WritesRecord(s.pc) {
      ChangeKeeps(disk, DropPart, s.book);
    }
    hide SoundDisk;
  }

  // ----- removal steps keep the invariant

  /** A change of a removal never brings a tree to a place that had none. */
  ghost predicate Removes(d: R.Directory, c: R.Change) {
    !c.Place? && (c.MoveAside? ==> d.target.Tree?)
  }

  lemma InKeeps(w: World, site: Site, c: R.Change, book: R.Book)
    requires Sound(w, book) && R.Sound(R.Apply(w.At(site), c), book) && Removes(w.At(site), c)
    requires if site.Staged? then w.operation else w.canonical && Empty(w.staged)
    ensures Sound(Apply(w, In(site, c)), book)
  {}

  lemma ViewInv(s: State)
    requires Inv(s) && s.pc.Removing?
    ensures R.Inv(View(s)) && View(s).disk.Live() == s.disk.Live().At(s.pc.site)
  {
    LiveSound(s.disk, s.book);
    R.SettledImage(s.disk.Live().At(s.pc.site));
  }

  /** A removal step changes the directory by at most two changes, each a removal, and creates nothing. */
  ghost predicate Modest(d: R.Directory, t: R.State) {
    && t.disk.durable == d && |t.disk.log| <= 2
    && (|t.disk.log| >= 1 ==> Removes(d, t.disk.log[0]))
    && (|t.disk.log| == 2 ==> t.disk.log[1].RemovePart?)
  }

  lemma StepModest(s: R.State, io: R.Io)
    requires R.Inv(s) && s.disk.log == [] && R.RunStep(s, io).Some?
    ensures Modest(s.disk.durable, R.RunStep(s, io).value)
  {
    R.SettledImage(s.disk.durable);
  }

  lemma LiftedUnfold(disk: Disk, site: Site, changes: seq<R.Change>)
    ensures changes == [] ==> Lifted(disk, site, changes) == disk
    ensures |changes| == 1 ==> Lifted(disk, site, changes) == disk.Change(In(site, changes[0]))
    ensures |changes| == 2 ==>
              Lifted(disk, site, changes) == disk.Change(In(site, changes[0])).Change(In(site, changes[1]))
  {
    if |changes| == 2 {
      assert changes[..1] == [changes[0]];
    }
  }

  lemma ImagesOf(d: R.Directory, changes: seq<R.Change>)
    requires |changes| <= 2
    ensures var disk := R.Disk(d, changes);
            && (changes == [] ==> disk.Live() == d)
            && (|changes| >= 1 ==> disk.Image(1) == R.Apply(d, changes[0]))
            && (|changes| == 1 ==> disk.Live() == R.Apply(d, changes[0]))
            && (|changes| == 2 ==> disk.Live() == disk.Image(2) == R.Apply(R.Apply(d, changes[0]), changes[1]))
  {
    R.SettledImage(d);
    if |changes| >= 1 {
      R.ImageOfChange(R.Disk(d, []), changes[0], 1);
      assert changes[..1] == [changes[0]] && R.Disk(d, []).Change(changes[0]) == R.Disk(d, changes[..1]);
      assert R.Disk(d, changes).Image(1) == R.Disk(d, changes[..1]).Image(1);
    }
    if |changes| == 2 {
      R.ImageOfChange(R.Disk(d, changes[..1]), changes[1], 2);
      assert R.Disk(d, changes[..1]).Change(changes[1]) == R.Disk(d, changes);
    }
  }

  lemma Outside(w: World, site: Site, c: R.Change)
    ensures var v := Apply(w, In(site, c));
            && v.At(site) == R.Apply(w.At(site), c)
            && (site.Staged? ==> v.published == w.published) && (site.Published? ==> v.staged == w.staged)
            && v.operation == w.operation && v.canonical == w.canonical
  {}

  ghost predicate SiteReady(w: World, site: Site) {
    if site.Staged? then w.operation else w.canonical && Empty(w.staged)
  }

  /** What a removal step does to the world beyond its own place: nothing. */
  lemma LiftedKeeps(disk: Disk, site: Site, t: R.State, book: R.Book)
    requires SoundDisk(disk, book) && SiteReady(disk.Live(), site)
    requires Modest(disk.Live().At(site), t) && R.SoundDisk(t.disk, book)
    ensures var after := Lifted(disk, site, t.disk.log);
            var w, v := disk.Live(), after.Live();
            && SoundDisk(after, book)
            && v.At(site) == t.disk.Live() && v.operation == w.operation && v.canonical == w.canonical
            && (site.Staged? ==> v.published == w.published) && (site.Published? ==> v.staged == w.staged)
  {
    hide Sound, Apply, Lifted, R.Apply, R.Sound, R.ApplyAll, ApplyAll;
    var changes, w := t.disk.log, disk.Live();
    LiftedUnfold(disk, site, changes);
    ImagesOf(t.disk.durable, changes);
    LiveSound(disk, book);
    if |changes| >= 1 {
      var c := In(site, changes[0]);
      assert R.Sound(t.disk.Image(1), book);
      InKeeps(w, site, changes[0], book);
      Outside(w, site, changes[0]);
      ChangeKeeps(disk, c, book);
      if |changes| == 2 {
        var v := Apply(w, c);
        assert R.Sound(t.disk.Image(2), book);
        InKeeps(v, site, changes[1], book);
        Outside(v, site, changes[1]);
        ChangeKeeps(disk.Change(c), In(site, changes[1]), book);
      }
    }
  }

  /** A removal returns only when its place holds nothing, all synced. */
  lemma RemovalEnds(s: R.State, io: R.Io)
    requires R.Inv(s) && s.disk.log == [] && R.RunStep(s, io).Some?
    ensures var t := R.RunStep(s, io).value;
            && (t.pc.Returned? ==> R.Gone(s.disk.durable) && t.disk.log == [] && Flushes(s.pc, io))
            && !t.pc.Idle?
  {
    R.SettledImage(s.disk.durable);
  }

  lemma InnerBook(s: R.State, io: R.Io)
    requires R.Inv(s) && R.RunStep(s, io).Some?
    ensures var b := R.RunStep(s, io).value.book;
            s.book.verified <= b.verified && s.book.next == b.next && s.book.owned == b.owned
  {}

  lemma Forgetting(t: R.State)
    requires R.Inv(t)
    ensures R.Inv(t.(book := t.book.(removed := [])))
  {
    var more := t.book.(removed := []);
    forall k | 0 <= k <= |t.disk.log| ensures R.Sound(t.disk.Image(k), more) {
      assert R.Sound(t.disk.Image(k), t.book);
    }
  }

  lemma RemovingKeeps(s: State, io: R.Io)
    requires Inv(s) && s.pc.Removing? && InnerStep(s, io).Some?
    ensures Inv(InnerStep(s, io).value)
  {
    hide Sound, Apply, Lifted, R.Apply, R.Sound, R.ApplyAll, ApplyAll, R.RunStep, SoundDisk, R.Expects, Flushes;
    var view, site := View(s), s.pc.site;
    var t := R.RunStep(view, io).value;
    ViewInv(s);
    R.StepKeeps(view, R.Run(io));
    StepModest(view, io);
    RemovalEnds(view, io);
    InnerBook(view, io);
    Forgetting(t);
    var book := t.book.(removed := []);
    var base := if Flushes(s.pc.inner, io) then s.disk.Synced() else s.disk;
    SyncKeeps(s.disk, s.book);
    BookGrows(base, s.book, book);
    LiftedKeeps(base, site, t, book);
    LeadsSound(s, Lifted(base, site, t.disk.log), t.pc, book);
  }

  /** Where a removal leads is prepared for. */
  lemma LeadsSound(s: State, disk: Disk, inner: R.Pc, book: R.Book)
    requires s.pc.Removing? && Expects(s.pc, s.disk, s.book) && !inner.Idle?
    requires SoundDisk(disk, book)
    requires R.Expects(inner, disk.Live().At(s.pc.site), book)
    requires inner.Returned? ==> R.Gone(disk.Live().At(s.pc.site))
    requires var w, v := s.disk.Live(), disk.Live();
             && v.operation == w.operation && v.canonical == w.canonical
             && (s.pc.site.Staged? ==> v.published == w.published)
             && (s.pc.site.Published? ==> v.staged == w.staged)
    ensures Expects(RemovalLeads(disk.Live(), s.pc, inner), disk, book)
  {
    LiveSound(disk, book);
    hide SoundDisk;
  }

  // ----- every step keeps the invariant

  lemma StageKeeps(s: State, owned: bool)
    requires Inv(s) && Take(s, StageRepository(owned)).Some?
    ensures Inv(Take(s, StageRepository(owned)).value)
  {
    var more := R.Placed(s.book, owned);
    BookGrows(s.disk, s.book, more);
    LiveSound(s.disk, more);
    ChangeKeeps(s.disk, Stage(s.book.next), more);
    hide SoundDisk;
  }

  lemma CrashKeeps(s: State, keep: nat)
    requires Inv(s) && keep <= |s.disk.log|
    ensures Inv(State(s.disk.Crashed(keep), Idle, s.book))
  {
    SettledImage(s.disk.Image(keep));
  }

  lemma StepKeeps(s: State, e: Event)
    requires Inv(s) && Take(s, e).Some?
    ensures Inv(Take(s, e).value)
  {
    hide SoundDisk;
    match e
    case StartPublish =>
    case StartDiscard =>
    case StageRepository(owned) => StageKeeps(s, owned);
    case Crash(keep) => CrashKeeps(s, keep);
    case Run(io) =>
      if s.pc.Removing? {
        RemovingKeeps(s, io);
      } else {
        match io
        case Done => DoneKeeps(s);
        case Partly =>
        case Refused =>
        case Stop =>
        case Failed(took, cleaned) => FailureKeeps(s, took, cleaned);
      }
  }

  /** Main result: whatever is published, discarded, staged, interrupted or crashed, in whatever order, the world
      is sound, on disk and after every possible crash. */
  lemma {:induction false} AlwaysSound(events: seq<Event>)
    requires History(events).Some?
    ensures Inv(History(events).value)
    decreases |events|
  {
    if events == [] {
      SettledImage(NOWHERE);
    } else {
      AlwaysSound(events[..|events| - 1]);
      StepKeeps(History(events[..|events| - 1]).value, events[|events| - 1]);
    }
  }

  // ----- what callers rely on

  /** After any history and any crash: the repository that exists is at exactly one of staged, published and
      detached under its own exact marker; at its staged or published place it is whole; and at its published
      place it holds its own exact publication record. Only a repository of this attempt is ever published or
      deleted. */
  lemma OnePlace(events: seq<Event>, keep: nat)
    requires History(events).Some? && keep <= |History(events).value.disk.log|
    ensures var s := History(events).value; var w := s.disk.Image(keep);
            && OneCopy(w)
            && (w.staged.target.Tree? ==> w.staged.target.whole)
            && (w.published.target.Tree? ==> w.published.target.whole && w.record == R.Exact(w.published.target.id))
            && (w.staged.detached.Tree? ==> w.staged.marker == R.Exact(w.staged.detached.id))
            && (w.published.detached.Tree? ==> w.published.marker == R.Exact(w.published.detached.id))
            && s.book.deleted <= s.book.owned
            && (w.published.target.Tree? ==> w.published.target.id in s.book.owned)
  {
    AlwaysSound(events);
    assert Sound(History(events).value.disk.Image(keep), History(events).value.book);
  }

  /** A step that completes an operation. */
  ghost predicate Completes(events: seq<Event>, e: Event) {
    && History(events).Some? && Take(History(events).value, e).Some?
    && !Resting(History(events).value.pc) && Take(History(events).value, e).value.pc.Returned?
  }

  /** When publishing returns, the repository is durably published, whole and recorded, and no longer staged. */
  lemma KeptMeansPublished(events: seq<Event>, e: Event)
    requires Completes(events, e) && Take(History(events).value, e).value.pc.result.Kept?
    ensures var t := Take(History(events).value, e).value; var id := t.pc.result.id;
            && t.disk.log == [] && t.disk.durable.existing == Some(id)
            && t.disk.durable.published.target == R.Tree(id, true) && t.disk.durable.record == R.Exact(id)
            && Empty(t.disk.durable.staged)
  {
    var s, t := History(events).value, Take(History(events).value, e).value;
    AlwaysSound(events);
    AlwaysSound(events + [e]) by { assert (events + [e])[..|events|] == events; }
    LiveSound(t.disk, t.book);
    SettledImage(s.disk.Live());
    if s.pc.Removing? {
      hide R.RunStep;
      assert false;
    }
  }

  /** What discarding has established when it is about to end. */
  lemma NothingKept(w: World, book: R.Book)
    requires Sound(w, book) && Empty(w.staged) && Empty(w.published)
    ensures w.existing.None?
  {}

  lemma DiscardEnds(s: State, io: R.Io)
    requires Inv(s) && !Resting(s.pc) && Take(s, Run(io)).Some?
    requires var t := Take(s, Run(io)).value; t.pc.Returned? && t.pc.result.Discarded?
    ensures var t := Take(s, Run(io)).value; var w := t.disk.durable;
            && t.disk.log == [] && w.existing.None? && Empty(w.staged) && R.Gone(w.published)
            && ((s.pc.Removing? && s.pc.site.Published? && !s.pc.sweep) || R.Gone(w.staged))
  {
    LiveSound(s.disk, s.book);
    SettledImage(s.disk.Live());
    if s.pc.Removing? {
      RemovalEndsDiscard(s, io);
    } else {
      hide R.Sound, SoundDisk;
    }
  }

  lemma RemovalEndsDiscard(s: State, io: R.Io)
    requires Inv(s) && s.pc.Removing? && InnerStep(s, io).Some?
    requires var t := InnerStep(s, io).value; t.pc.Returned? && t.pc.result.Discarded?
    ensures var t := InnerStep(s, io).value; var w := t.disk.durable;
            && t.disk.log == [] && w.existing.None? && Empty(w.staged) && R.Gone(w.published)
            && ((s.pc.site.Published? && !s.pc.sweep) || R.Gone(w.staged))
  {
    hide R.RunStep, Flushes, R.Expects, R.Sound, SoundDisk, OneCopy;
    var t := R.RunStep(View(s), io).value;
    LiveSound(s.disk, s.book);
    SettledImage(s.disk.Live());
    ViewInv(s);
    RemovalEnds(View(s), io);
    assert t.pc.Returned?;
    LiftedUnfold(s.disk.Synced(), s.pc.site, []);
    NothingKept(s.disk.Live(), s.book);
  }

  /** When discarding returns, nothing of the repository is left at either place, durably, and no cleanup marker
      either, except a marker an earlier interrupted discard left beside the staged place. */
  lemma DiscardedMeansGone(events: seq<Event>, e: Event)
    requires Completes(events, e) && Take(History(events).value, e).value.pc.result.Discarded?
    ensures var s, t := History(events).value, Take(History(events).value, e).value;
            var w := t.disk.durable;
            && t.disk.log == [] && w.existing.None? && Empty(w.staged) && R.Gone(w.published)
            && ((s.pc.Removing? && s.pc.site.Published? && !s.pc.sweep) || R.Gone(w.staged))
  {
    AlwaysSound(events);
    DiscardEnds(History(events).value, e.io);
  }

  // ----- undisturbed operations

  /** How far an operation is from its end. */
  function Rank(pc: Pc): nat {
    match pc
    case LookDiscard => 40
    case Removing(site, inner, _, _) => (if site.Staged? then 20 else 1) + R.Rank(inner)
    case SyncNothing => 0
    case LookPublish => 13
    case CheckPublished => 1
    case SyncPublished => 0
    case VerifyStaged => 12
    case ClearRecord(exact) => if exact then 8 else 11
    case OpenRecord => 10
    case FillRecord => 9
    case RenameRecord => 8
    case SyncRecord(_) => 7
    case CanonicalDirectory => 6
    case SyncRoot => 5
    case MoveOver => 4
    case SyncMoved => 3
    case CheckMoved => 2
    case Idle => 41
    case Returned(_) => 41
    case Threw(_) => 41
  }

  /** How a step ends when nothing goes wrong: ownership is answered truthfully, all else succeeds. */
  function Undisrupted(s: State): R.Io {
    if s.pc.Removing? then R.Undisrupted(View(s))
    else if s.pc.VerifyStaged? && !OwnedStaged(s) then R.Refused
    else R.Done
  }

  lemma RemovalDescends(s: R.State, io: R.Io)
    requires !R.Resting(s.pc) && io == R.Undisrupted(s)
    ensures R.RunStep(s, io).Some?
    ensures var t := R.RunStep(s, io).value; R.Resting(t.pc) || R.Rank(t.pc) < R.Rank(s.pc)
    ensures R.Rank(s.pc) <= 13
  {}

  lemma RemovingDescends(s: State)
    requires Inv(s) && s.pc.Removing?
    ensures InnerStep(s, Undisrupted(s)).Some?
    ensures var t := InnerStep(s, Undisrupted(s)).value; Resting(t.pc) || Rank(t.pc) < Rank(s.pc)
  {
    RemovalDescends(View(s), R.Undisrupted(View(s)));
    hide R.RunStep, SoundDisk, Sound, R.Expects, R.Sound, Lifted, R.Rank, R.Undisrupted;
  }

  lemma OuterDescends(s: State)
    requires !Resting(s.pc) && !s.pc.Removing?
    ensures OuterStep(s, Undisrupted(s)).Some?
    ensures var t := OuterStep(s, Undisrupted(s)).value; Resting(t.pc) || Rank(t.pc) < Rank(s.pc)
  {
    hide Touched;
  }

  lemma Descends(s: State)
    requires Inv(s) && !Resting(s.pc)
    ensures Take(s, Run(Undisrupted(s))).Some?
    ensures var t := Take(s, Run(Undisrupted(s))).value; Inv(t) && (Resting(t.pc) || Rank(t.pc) < Rank(s.pc))
  {
    hide Inv, Rank, After, Touched, InnerStep, OuterStep, Undisrupted;
    if s.pc.Removing? {
      RemovingDescends(s);
    } else {
      OuterDescends(s);
    }
    StepKeeps(s, Run(Undisrupted(s)));
  }

  /** Runs without interruption from a step of an operation to its end. */
  ghost function Undisturbed(s: State): State
    requires Inv(s) && !Resting(s.pc)
    decreases Rank(s.pc)
  {
    Descends(s);
    var t := Take(s, Run(Undisrupted(s))).value;
    if Resting(t.pc) then t else Undisturbed(t)
  }

  predicate Publishes(pc: Pc) { !Resting(pc) && !pc.LookDiscard? && !pc.Removing? && !pc.SyncNothing? }

  /** There is something to publish, and it is of this attempt. */
  predicate Publishable(s: State) { OwnedStaged(s) || s.disk.Live().published.target.Tree? }

  lemma PublishStep(s: State)
    requires Inv(s) && Publishes(s.pc)
    requires (s.pc.LookPublish? ==> Publishable(s)) && (s.pc.VerifyStaged? ==> OwnedStaged(s))
    ensures var t := State(Touched(s), After(s), s.book);
            && Take(s, Run(Undisrupted(s))) == Some(t) && t.disk.Live().existing == s.disk.Live().existing
            && (Publishes(t.pc) || (t.pc.Returned? && t.pc.result.Kept?)) && !t.pc.LookPublish?
            && (t.pc.VerifyStaged? ==> OwnedStaged(t))
            && (t.pc.Returned? ==> t.disk.Live().existing == Some(t.pc.result.id))
  {
    LiveSound(s.disk, s.book);
    TouchedKeeps(s);
    hide SoundDisk, R.Sound;
  }

  lemma {:induction false} UndisturbedPublishes(s: State)
    requires Inv(s) && Publishes(s.pc)
    requires (s.pc.LookPublish? ==> Publishable(s)) && (s.pc.VerifyStaged? ==> OwnedStaged(s))
    ensures var t := Undisturbed(s);
            t.pc.Returned? && t.pc.result.Kept? && s.disk.Live().existing == Some(t.pc.result.id)
    decreases Rank(s.pc)
  {
    Descends(s);
    PublishStep(s);
    hide SoundDisk, Inv, Sound, Expects, After, Touched, Take, OwnedStaged, Undisrupted;
    var t := State(Touched(s), After(s), s.book);
    if !Resting(t.pc) {
      UndisturbedPublishes(t);
    }
  }

  /** Publishing converges: left alone it returns exactly when the repository of this attempt is at its staged or
      its published place, whatever happened before, and it returns that repository. */
  lemma PublishConverges(events: seq<Event>)
    requires History(events).Some? && Resting(History(events).value.pc)
    ensures var s := Goto(History(events).value, LookPublish); var w := s.disk.Live();
            && Inv(s)
            && (Undisturbed(s).pc.Returned? <==> Publishable(s))
            && (Undisturbed(s).pc.Returned? ==>
                  Undisturbed(s).pc.result.Kept? && w.existing == Some(Undisturbed(s).pc.result.id))
  {
    AlwaysSound(events);
    var s := Goto(History(events).value, LookPublish);
    if Publishable(s) {
      UndisturbedPublishes(s);
    } else {
      PublishRefused(s);
    }
  }

  lemma PublishRefused(s: State)
    requires Inv(s) && s.pc.LookPublish? && !Publishable(s)
    ensures Undisturbed(s).pc.Threw?
  {
    LiveSound(s.disk, s.book);
    hide SoundDisk, R.Sound, Apply;
    Descends(s);
    var t := Take(s, Run(Undisrupted(s))).value;
    if t.pc.VerifyStaged? {
      Descends(t);
      assert Take(t, Run(Undisrupted(t))).value.pc.Threw?;
    }
  }

  /** One undisturbed step of discarding: where it leads and what it leaves alone. */
  lemma DiscardStep(s: State)
    requires Inv(s) && (s.pc.LookDiscard? || s.pc.SyncNothing?)
    ensures var t := State(Touched(s), After(s), s.book);
            && Take(s, Run(Undisrupted(s))) == Some(t) && t.disk.Live() == s.disk.Live()
            && (s.pc.SyncNothing? ==> t.pc == Returned(Discarded(R.Replayed)))
            && (s.pc.LookDiscard? ==> t.pc == DiscardFrom(s.disk.Live()) && !t.pc.Threw?)
  {
    LiveSound(s.disk, s.book);
    SyncKeeps(s.disk, s.book);
    hide SoundDisk, R.Sound;
  }

  lemma NeverThrows(s: R.State)
    requires R.Inv(s) && s.disk.log == [] && R.RunStep(s, R.Done).Some?
    ensures !R.RunStep(s, R.Done).value.pc.Threw?
  {
    R.LiveSound(s.disk, s.book);
    R.SettledImage(s.disk.durable);
  }

  /** An undisturbed removal goes on, or ends with its place empty and all synced; the other place is untouched. */
  lemma RemovingStep(s: State)
    requires Inv(s) && s.pc.Removing? && InnerStep(s, R.Done).Some?
    ensures var t := InnerStep(s, R.Done).value; var site := s.pc.site; var w, v := s.disk.Live(), t.disk.Live();
            && (site.Staged? ==> v.published == w.published) && (site.Published? ==> v.staged == w.staged)
            && ((t.pc.Removing? && t.pc == s.pc.(inner := t.pc.inner))
                || (R.Gone(v.At(site)) && t.disk.log == [] && t.disk.durable == v
                    && if s.pc.sweep then !t.pc.Removing? || (site.Staged? && t.pc.site.Published? && t.pc.sweep)
                       else t.pc.Returned?))
            && (t.pc.Removing? || t.pc.SyncNothing? || (t.pc.Returned? && t.pc.result.Discarded?))
  {
    hide R.RunStep, SoundDisk, Sound, Expects, R.Expects, R.Gone, R.Rank, Lifted, Applied, ApplyAll;
    RemovalMoves(s, R.Done);
  }

  predicate Discards(pc: Pc) { pc.LookDiscard? || pc.Removing? || pc.SyncNothing? }

  /** Discarding a published repository leaves the staged place as it is. */
  predicate LeavesStaged(s: State) {
    var w := s.disk.Live();
    match s.pc
    case LookDiscard => w.staged.target.NoTree? && w.published.target.Tree?
    case Removing(site, _, sweep, _) => site.Published? && !sweep
    case _ => false
  }

  lemma LookKeeps(s: State)
    requires s.pc.LookDiscard?
    ensures var t := State(Touched(s), After(s), s.book); LeavesStaged(t) == LeavesStaged(s)
  {}

  /** A target that is not of this attempt, with no marker an earlier discard could have left. */
  predicate Foreign(d: R.Directory, owned: set<R.TreeId>) {
    d.target.Tree? && d.marker.NoFile? && d.target.id !in owned
  }

  /** Nothing foreign is in the way of what is still to be verified. */
  predicate NoneForeign(s: State) {
    match s.pc
    case LookDiscard => !Foreign(s.disk.Live().staged, s.book.owned)
    case Removing(site, inner, _, _) => inner.Inspect? || inner.Verify? ==> !Foreign(s.disk.Live().At(site), s.book.owned)
    case _ => true
  }

  lemma {:induction false} UndisturbedDiscards(s: State)
    requires Inv(s) && Discards(s.pc) && NoneForeign(s)
    ensures var t := Undisturbed(s); var w := t.disk.durable;
            && t.pc.Returned? && t.pc.result.Discarded? && t.disk.log == []
            && R.Gone(w.published) && (if LeavesStaged(s) then w.staged == s.disk.Live().staged else R.Gone(w.staged))
    decreases Rank(s.pc)
  {
    hide SoundDisk, Sound, Expects, R.RunStep, R.Sound, R.Gone, R.Expects, Rank, ApplyAll, InnerStep, Undisturbed, Touched,
         DiscardFrom, After, Empty, View, RemovalLeads, NoneForeign, Undisrupted, Inv;
    UndisturbedUnfold(s);
    var io := Undisrupted(s);
    var t := Take(s, Run(io)).value;
    if s.pc.Removing? {
      OwnedGoesOn(s);
      RemovingStep(s);
    } else {
      DiscardStep(s);
      if s.pc.LookDiscard? {
        LookKeeps(s);
        LookOn(s);
        LookUnforeign(s);
      }
    }
    if Resting(t.pc) {
      DiscardEnds(s, io);
    } else {
      StaysUnforeign(s, t);
      UndisturbedDiscards(t);
    }
  }

  /** With nothing foreign in the way, the next step is one that succeeds. */
  lemma OwnedGoesOn(s: State)
    requires Inv(s) && s.pc.Removing? && NoneForeign(s)
    ensures Undisrupted(s) == R.Done
  {
    ViewInv(s);
    hide SoundDisk, Sound, R.Sound;
  }

  lemma LookUnforeign(s: State)
    requires Inv(s) && s.pc.LookDiscard? && NoneForeign(s)
    ensures NoneForeign(State(Touched(s), After(s), s.book))
  {
    LiveSound(s.disk, s.book);
    hide SoundDisk, R.Sound;
  }

  lemma StaysUnforeign(s: State, t: State)
    requires Inv(s) && Discards(s.pc) && NoneForeign(s) && Undisrupted(s) == R.Done && Take(s, Run(R.Done)) == Some(t)
    requires Inv(t) && (s.pc.LookDiscard? ==> NoneForeign(t))
    ensures NoneForeign(t)
  {
    LiveSound(t.disk, t.book);
    if s.pc.Removing? && t.pc.Removing? && t.pc.site.Staged? {
      assert t.pc.site == s.pc.site;
      InnerUnforeign(s, t);
    }
    hide SoundDisk, R.Sound, R.RunStep;
  }

  lemma InnerUnforeign(s: State, t: State)
    requires Inv(s) && s.pc.Removing? && NoneForeign(s) && Take(s, Run(R.Done)) == Some(t) && t.pc.Removing?
    requires t.pc.site == s.pc.site
    ensures NoneForeign(t)
  {
    ViewInv(s);
    R.SettledImage(s.disk.Live().At(s.pc.site));
    RemovalMoves(s, R.Done);
    hide SoundDisk, Sound, R.Sound;
  }

  lemma LookOn(s: State)
    requires Inv(s) && s.pc.LookDiscard?
    ensures Discards(After(s))
  {
    LiveSound(s.disk, s.book);
    hide SoundDisk, R.Sound;
  }

  lemma UndisturbedUnfold(s: State)
    requires Inv(s) && !Resting(s.pc)
    ensures Take(s, Run(Undisrupted(s))).Some?
    ensures var t := Take(s, Run(Undisrupted(s))).value;
            Inv(t) && (Resting(t.pc) || Rank(t.pc) < Rank(s.pc))
            && Undisturbed(s) == if Resting(t.pc) then t else Undisturbed(t)
  {
    Descends(s);
    hide Take, Inv;
  }

  lemma MarkersWhole(w: World, book: R.Book)
    requires Sound(w, book)
    ensures !w.staged.marker.Partial? && !w.published.marker.Partial?
  {}

  /** Discarding converges: left alone, from whatever state interruptions left, it returns with the repository
      durably gone, except that it refuses a staged repository of another attempt and then has changed nothing. A
      cleanup marker stays exactly when the repository was published while an earlier discard had left its marker
      beside the staged place. */
  lemma DiscardConverges(events: seq<Event>)
    requires History(events).Some? && Resting(History(events).value.pc)
    ensures var s := Goto(History(events).value, LookDiscard); var w := s.disk.Live();
            && Inv(s)
            && (var t := Undisturbed(s);
                && (t.pc.Returned? <==> !Foreign(w.staged, s.book.owned))
                && (Foreign(w.staged, s.book.owned) ==> t.pc == Threw(Removal(R.NotOwned)) && t.disk == s.disk)
                && (t.pc.Returned? ==>
                      && t.pc.result.Discarded? && t.disk.log == []
                      && Empty(t.disk.durable.staged) && R.Gone(t.disk.durable.published)
                      && (R.Gone(t.disk.durable.staged) <==> !(w.published.target.Tree? && w.staged.marker.Exact?))))
  {
    AlwaysSound(events);
    var s := Goto(History(events).value, LookDiscard);
    LiveSound(s.disk, s.book);
    MarkersWhole(s.disk.Live(), s.book);
    if Foreign(s.disk.Live().staged, s.book.owned) {
      DiscardRefused(s);
    } else {
      UndisturbedDiscards(s);
    }
    hide SoundDisk, Undisturbed, R.Sound;
  }

  lemma DiscardRefused(s: State)
    requires Inv(s) && s.pc.LookDiscard? && Foreign(s.disk.Live().staged, s.book.owned)
    ensures var t := Undisturbed(s); t.pc == Threw(Removal(R.NotOwned)) && t.disk == s.disk
  {
    LiveSound(s.disk, s.book);
    var t := Goto(s, Removing(Staged, R.Inspect, false, false));
    DiscardStep(s);
    assert Take(s, Run(Undisrupted(s))) == Some(t) by { LooksForeign(s); }
    UndisturbedUnfold(s);
    InspectForeign(t);
    var u := Goto(s, Removing(Staged, R.Verify, false, false));
    UndisturbedUnfold(t);
    VerifyForeign(u);
    UndisturbedUnfold(u);
    hide Undisturbed, Take, Inv;
  }

  lemma LooksForeign(s: State)
    requires Inv(s) && s.pc.LookDiscard? && Foreign(s.disk.Live().staged, s.book.owned)
    ensures Take(s, Run(Undisrupted(s))) == Some(Goto(s, Removing(Staged, R.Inspect, false, false)))
  {
    LiveSound(s.disk, s.book);
    hide SoundDisk, R.Sound;
  }

  lemma InspectForeign(s: State)
    requires Inv(s) && s.pc == Removing(Staged, R.Inspect, false, false) && Foreign(s.disk.Live().staged, s.book.owned)
    ensures Take(s, Run(Undisrupted(s))) == Some(Goto(s, Removing(Staged, R.Verify, false, false)))
  {
    ViewInv(s);
    R.SettledImage(s.disk.Live().staged);
    LiftedUnfold(s.disk, Staged, []);
    hide SoundDisk, Sound;
  }

  lemma VerifyForeign(s: State)
    requires Inv(s) && s.pc == Removing(Staged, R.Verify, false, false) && Foreign(s.disk.Live().staged, s.book.owned)
    ensures Take(s, Run(Undisrupted(s))) == Some(Goto(s, Threw(Removal(R.NotOwned))))
  {
    ViewInv(s);
    R.SettledImage(s.disk.Live().staged);
    LiftedUnfold(s.disk, Staged, []);
    hide SoundDisk, Sound;
  }

  // ----- the marker an interrupted discard leaves behind

  /** One more event at the end of a history. */
  lemma Extended(events: seq<Event>, s: State, e: Event) returns (more: seq<Event>, t: State)
    requires History(events) == Some(s) && Take(s, e).Some?
    ensures History(more) == Some(t) && t == Take(s, e).value
  {
    more, t := events + [e], Take(s, e).value;
    assert more[..|more| - 1] == events;
  }

  lemma RemovedOneStep(s: State, t: State)
    requires s.pc.Removing? && !R.Resting(s.pc.inner)
    requires Take(s, Run(R.Done)) == Some(t)
    ensures var c := R.Effect(View(s)); var w := s.disk.Live();
            t.disk.Live() == (if c.Some? && !R.IsSync(s.pc.inner) then Apply(w, In(s.pc.site, c.value)) else w)
            && t.pc == RemovalLeads(t.disk.Live(), s.pc, R.After(View(s)))
  {
    var d, changes := s.disk.Live().At(s.pc.site), R.RunStep(View(s), R.Done).value.disk.log;
    var base := if R.IsSync(s.pc.inner) then s.disk.Synced() else s.disk;
    R.SettledImage(d);
    SettledImage(s.disk.Live());
    LiftedUnfold(base, s.pc.site, changes);
    if changes != [] {
      LiveOfChange(base, In(s.pc.site, changes[0]));
    }
    hide R.Effect, R.After, Apply;
  }

  const STAGED: R.Directory := R.EMPTY.(target := R.Tree(0, true))
  const MARKED: R.Directory := STAGED.(marker := R.Exact(0))

  /** A removal's own step and what it does to its directory. */
  function Alone(inner: R.Pc, d: R.Directory): (R.Pc, R.Directory) {
    var s := R.State(R.Disk(d, []), inner, R.Book(0, {}, {}, {}, []));
    (R.After(s), if R.IsSync(inner) || R.Effect(s).None? then d else R.Apply(d, R.Effect(s).value))
  }

  lemma AloneTable()
    ensures Alone(R.Inspect, STAGED) == (R.Verify, STAGED)
    ensures Alone(R.Verify, STAGED) == (R.ClearPart(false), STAGED)
    ensures Alone(R.ClearPart(false), STAGED) == (R.CreateMarker, STAGED)
    ensures Alone(R.CreateMarker, STAGED) == (R.FillMarker, STAGED.(part := R.Partial))
    ensures Alone(R.FillMarker, STAGED.(part := R.Partial)) == (R.RenameMarker, STAGED.(part := R.Exact(0)))
    ensures Alone(R.RenameMarker, STAGED.(part := R.Exact(0))) == (R.SyncMarker, MARKED)
    ensures Alone(R.SyncMarker, MARKED) == (R.Recheck, MARKED)
    ensures Alone(R.Recheck, MARKED) == (R.RenameAside, MARKED)
  {
    R.SettledImage(STAGED);
    R.SettledImage(MARKED);
    R.SettledImage(STAGED.(part := R.Partial));
    R.SettledImage(STAGED.(part := R.Exact(0)));
  }

  lemma BookAside(inner: R.Pc, d: R.Directory, book: R.Book)
    ensures var s := R.State(R.Disk(d, []), inner, book);
            Alone(inner, d)
            == (R.After(s), if R.IsSync(inner) || R.Effect(s).None? then d else R.Apply(d, R.Effect(s).value))
  {}

  lemma InPlain(w: World, site: Site, c: R.Change)
    requires w.At(site).detached.NoTree?
    ensures Apply(w, In(site, c)) == w.With(site, R.Apply(w.At(site), c))
  {}

  lemma OneAlone(s: State, t: State)
    requires s.pc.Removing? && !R.Resting(s.pc.inner) && s.disk.Live().At(s.pc.site).detached.NoTree?
    requires Take(s, Run(R.Done)) == Some(t)
    ensures var site := s.pc.site; var w := s.disk.Live(); var step := Alone(s.pc.inner, w.At(site));
            && t.disk.Live() == w.With(site, step.1)
            && t.pc == RemovalLeads(t.disk.Live(), s.pc, step.0)
  {
    hide Take, RemovalLeads, R.Apply, Apply, R.After, R.Effect, Alone;
    var w, site := s.disk.Live(), s.pc.site;
    RemovedOneStep(s, t);
    BookAside(s.pc.inner, w.At(site), s.book);
    if R.Effect(View(s)).Some? {
      InPlain(w, site, R.Effect(View(s)).value);
    }
  }

  lemma RemoveMore(events: seq<Event>, s: State) returns (more: seq<Event>, t: State)
    requires History(events) == Some(s) && s.pc.Removing? && s.pc.site.Staged? && !R.Resting(s.pc.inner)
    requires s.disk.Live().staged.detached.NoTree? && !R.Resting(Alone(s.pc.inner, s.disk.Live().staged).0)
    requires s.disk.Live().staged.target.Tree? && s.disk.Live().staged.target.id in s.book.owned
    ensures History(more) == Some(t) && t.book.owned == s.book.owned
    ensures var step := Alone(s.pc.inner, s.disk.Live().staged);
            t.disk.Live() == s.disk.Live().(staged := step.1) && t.pc == s.pc.(inner := step.0)
  {
    hide Alone;
    ViewOwned(s);
    RemovalDescends(View(s), R.Done);
    more, t := Extended(events, s, Run(R.Done));
    OneAlone(s, t);
    OwnedSame(s, t);
  }

  lemma ViewOwned(s: State)
    requires s.pc.Removing? && s.disk.Live().At(s.pc.site).target.Tree? && s.disk.Live().At(s.pc.site).target.id in s.book.owned
    ensures R.OwnedTarget(View(s)) && R.Undisrupted(View(s)) == R.Done
  {
    R.SettledImage(s.disk.Live().At(s.pc.site));
  }

  /** A step that succeeds leaves ownership alone. */
  lemma OwnedSame(s: State, t: State)
    requires s.pc.Removing? && Take(s, Run(R.Done)) == Some(t)
    ensures t.book.owned == s.book.owned
  {}

  lemma StagedOnce() returns (events: seq<Event>, s: State)
    ensures History(events) == Some(s) && s.disk.Live() == NOWHERE.(staged := STAGED, operation := true, existing := Some(0))
    ensures s.pc == Removing(Staged, R.Inspect, false, false) && s.book.owned == {0}
  {
    SettledImage(NOWHERE);
    events, s := Extended([], INITIAL, StageRepository(true));
    LiveOfChange(INITIAL.disk, Stage(0));
    events, s := Extended(events, s, StartDiscard);
    events, s := Extended(events, s, Run(R.Done));
  }

  lemma HalfMarked() returns (events: seq<Event>, s: State)
    ensures History(events) == Some(s) && s.pc == Removing(Staged, R.FillMarker, false, false) && s.book.owned == {0}
    ensures s.disk.Live() == NOWHERE.(staged := STAGED.(part := R.Partial), operation := true, existing := Some(0))
  {
    hide History, Take, Alone, Disk.Live, Disk.Image, RemovalLeads, R.After, R.Effect, Apply, R.Apply, View;
    events, s := StagedOnce();
    AloneTable();
    events, s := RemoveMore(events, s);
    events, s := RemoveMore(events, s);
    events, s := RemoveMore(events, s);
    events, s := RemoveMore(events, s);
  }

  /** A discard of the staged repository, stopped after it wrote its marker. */
  lemma MarkedOnce() returns (events: seq<Event>, s: State)
    ensures History(events) == Some(s) && Resting(s.pc) && s.book.owned == {0}
    ensures s.disk.Live() == NOWHERE.(staged := MARKED, operation := true, existing := Some(0))
  {
    hide History, Take, Alone, Disk.Live, Disk.Image, RemovalLeads, R.After, R.Effect, Apply, R.Apply, View;
    events, s := HalfMarked();
    AloneTable();
    events, s := RemoveMore(events, s);
    events, s := RemoveMore(events, s);
    events, s := RemoveMore(events, s);
    events, s := RemoveMore(events, s);
    StoppedThere(s);
    events, s := Extended(events, s, Run(R.Stop));
  }

  lemma StoppedThere(s: State)
    requires s.pc.Removing? && s.pc.inner.RenameAside?
    ensures Take(s, Run(R.Stop)).Some?
    ensures var t := Take(s, Run(R.Stop)).value; Resting(t.pc) && t.disk.Live() == s.disk.Live() && t.book.owned == s.book.owned
  {}

  /** A publishing step and what it does to the world. */
  function Outer(pc: Pc, w: World): (Pc, World) {
    var s := State(Disk(w, []), pc, R.Book(0, {}, {}, {}, []));
    (After(s), if IsSync(pc) || Effect(s).None? then w else Apply(w, Effect(s).value))
  }

  const LEFT := NOWHERE.(staged := MARKED, operation := true, existing := Some(0))
  const RECORDED := LEFT.(record := R.Exact(0))
  const READY := RECORDED.(canonical := true)
  const MOVED := READY.(staged := MARKED.(target := R.NoTree), published := STAGED)

  lemma OuterTable()
    ensures Outer(LookPublish, LEFT) == (VerifyStaged, LEFT)
    ensures Outer(VerifyStaged, LEFT) == (ClearRecord(false), LEFT)
    ensures Outer(ClearRecord(false), LEFT) == (OpenRecord, LEFT)
    ensures Outer(OpenRecord, LEFT) == (FillRecord, LEFT.(recordPart := R.Partial))
    ensures Outer(FillRecord, LEFT.(recordPart := R.Partial)) == (RenameRecord, LEFT.(recordPart := R.Exact(0)))
    ensures Outer(RenameRecord, LEFT.(recordPart := R.Exact(0))) == (SyncRecord(true), RECORDED)
    ensures Outer(SyncRecord(true), RECORDED) == (CanonicalDirectory, RECORDED)
    ensures Outer(CanonicalDirectory, RECORDED) == (SyncRoot, READY)
    ensures Outer(SyncRoot, READY) == (MoveOver, READY)
    ensures Outer(MoveOver, READY) == (SyncMoved, MOVED)
    ensures Outer(SyncMoved, MOVED) == (CheckMoved, MOVED)
    ensures Outer(CheckMoved, MOVED) == (Returned(Kept(0)), MOVED)
  {
    SettledImage(LEFT);
    SettledImage(RECORDED);
    SettledImage(READY);
    SettledImage(MOVED);
    SettledImage(LEFT.(recordPart := R.Partial));
    SettledImage(LEFT.(recordPart := R.Exact(0)));
  }

  lemma PublishMore(events: seq<Event>, s: State) returns (more: seq<Event>, t: State)
    requires History(events) == Some(s) && Publishes(s.pc) && (s.pc.VerifyStaged? ==> OwnedStaged(s))
    ensures History(more) == Some(t) && (t.pc, t.disk.Live()) == Outer(s.pc, s.disk.Live()) && t.book == s.book
  {
    hide Apply;
    more, t := Extended(events, s, Run(R.Done));
    SettledImage(s.disk.Live());
    if Effect(s).Some? {
      LiveOfChange(s.disk, Effect(s).value);
    }
  }

  /** Such a history exists: staged, a discard stopped after its marker, then published. Discarding the published
      repository then leaves that marker behind. */
  lemma StaleMarkerPossible() returns (events: seq<Event>, s: State)
    ensures History(events) == Some(s) && Resting(s.pc)
    ensures s.disk.Live().published.target.Tree? && s.disk.Live().staged.marker.Exact?
    ensures Inv(Goto(s, LookDiscard)) && !R.Gone(Undisturbed(Goto(s, LookDiscard)).disk.durable.staged)
  {
    hide Undisturbed, History, Outer, Inv, R.Gone, Disk.Live, Disk.Image, After, Effect, Apply;
    events, s := MarkedOnce();
    events, s := Extended(events, s, StartPublish);
    OuterTable();
    events, s := PublishMore(events, s);
    events, s := PublishMore(events, s);
    events, s := PublishMore(events, s);
    events, s := PublishMore(events, s);
    events, s := PublishMore(events, s);
    events, s := PublishMore(events, s);
    events, s := PublishMore(events, s);
    events, s := PublishMore(events, s);
    events, s := PublishMore(events, s);
    events, s := PublishMore(events, s);
    events, s := PublishMore(events, s);
    events, s := PublishMore(events, s);
    DiscardConverges(events);
  }

  // ----- the operations as the source writes them

  /** Both directories as system calls see them, with the history that led to them. */
  class Placement {
    var live: World
    /** The repositories whose staged copy bears the marker of this attempt. */
    var owned: set<R.TreeId>
    ghost var history: seq<Event>
    ghost var state: State

    ghost predicate Valid()
      reads this
    {
      History(history) == Some(state) && state.disk.Live() == live && state.book.owned == owned
    }

    constructor ()
      ensures Valid() && history == []
    {
      live, owned, history, state := NOWHERE, {}, [], INITIAL;
    }

    ghost method Record(e: Event)
      requires History(history) == Some(state) && Take(state, e).Some?
      modifies this`history, this`state
      ensures history == old(history) + [e] && History(history) == Some(state) && state == Take(old(state), e).value
    {
      history := history + [e];
      assert history[..|history| - 1] == old(history);
      state := Take(state, e).value;
    }

    /** What is known of both places at any moment. */
    ghost method Known()
      requires Valid()
      ensures Inv(state) && Sound(live, state.book) && Expects(state.pc, state.disk, state.book)
    {
      AlwaysSound(history);
      LiveSound(state.disk, state.book);
    }

    /** A look at the directories, or a check that passes. */
    ghost method Think()
      requires Valid() && !Resting(state.pc) && !state.pc.Removing? && Touched(state) == state.disk
      requires state.pc.VerifyStaged? ==> OwnedStaged(state)
      modifies this`history, this`state
      ensures Valid() && old(history) < history
      ensures state == State(old(state).disk, After(old(state)), old(state).book)
    {
      Record(Run(R.Done));
    }

    /** One system call that changes a directory; with `faults` it may fail, with or without effect. */
    method Call(c: Change, inWriter: bool, faults: bool) returns (ok: bool)
      requires Valid() && !Resting(state.pc) && !state.pc.Removing? && !state.pc.MoveOver?
      requires Effect(state) == Some(c) && !IsSync(state.pc) && inWriter == WritesRecord(state.pc)
      modifies this
      ensures Valid() && old(history) < history && (!faults ==> ok)
      ensures ok ==> state.pc == After(old(state)) && live == Apply(old(live), c)
      ensures !ok ==> state.pc == Threw(Unavailable)
    {
      var good: bool, took: bool, cleaned: bool := *, *, *;
      LiveOfChange(state.disk, c);
      if !faults || good {
        Record(Run(R.Done));
        live, ok := Apply(live, c), true;
      } else {
        ghost var disk := if took then state.disk.Change(c) else state.disk;
        LiveOfChange(disk, DropPart);
        Record(Run(R.Failed(took, cleaned)));
        live := if took then Apply(live, c) else live;
        live := if cleaned && inWriter then Apply(live, DropPart) else live;
        ok := false;
      }
    }

    /** Syncing the directories involved. */
    method Sync(inWriter: bool, faults: bool) returns (ok: bool)
      requires Valid() && IsSync(state.pc) && inWriter == WritesRecord(state.pc)
      modifies this
      ensures Valid() && old(history) < history && (!faults ==> ok)
      ensures ok ==> state.pc == After(old(state)) && live == old(live)
      ensures ok ==> state.disk.log == [] && state.disk.durable == live
      ensures !ok ==> state.pc == Threw(Unavailable)
    {
      var good: bool, took: bool, cleaned: bool := *, *, *;
      SettledImage(state.disk.Live());
      if !faults || good {
        Record(Run(R.Done));
        ok := true;
      } else {
        ghost var disk := if took then state.disk.Synced() else state.disk;
        LiveOfChange(disk, DropPart);
        Record(Run(R.Failed(took, cleaned)));
        live := if cleaned && inWriter then Apply(live, DropPart) else live;
        ok := false;
      }
    }

    /** The chance to stop between two steps. */
    method MayContinue(faults: bool) returns (ok: bool)
      requires Valid() && (state.pc.VerifyStaged? || state.pc.CanonicalDirectory? || state.pc.MoveOver?)
      modifies this`history, this`state
      ensures Valid() && old(history) <= history && (!faults ==> ok) && (!ok ==> old(history) < history)
      ensures if ok then state == old(state) else state.pc == Threw(Aborted)
    {
      var go: bool := *;
      ok := !faults || go;
      if !ok {
        Record(Run(R.Stop));
      }
    }

    /** `#assertCheckpointAttemptMarker`: it looks at the staged repository alone. */
    method AssertAttemptMarker() returns (ok: bool)
      requires Valid() && state.pc.VerifyStaged?
      modifies this`history, this`state
      ensures Valid() && old(history) <= history && (!ok ==> old(history) < history)
      ensures ok <==> OwnedStaged(old(state))
      ensures if ok then state == old(state) else state == Goto(old(state), Threw(InvalidCheckpoint))
    {
      ok := live.staged.target.Tree? && live.staged.target.id in owned;
      if !ok {
        Record(Run(R.Refused));
      }
    }

    /** The checks of digests and repository content that are not modelled. */
    method Verified(faults: bool) returns (ok: bool)
      requires Valid() && (state.pc.VerifyStaged? || state.pc.CheckPublished? || state.pc.CheckMoved?)
      modifies this`history, this`state
      ensures Valid() && old(history) <= history && (!faults ==> ok) && (!ok ==> old(history) < history)
      ensures if ok then state == old(state) else state.pc == Threw(InvalidCheckpoint)
    {
      var good: bool := *;
      ok := !faults || good;
      if !ok {
        Record(Run(R.Refused));
      }
    }

    /** Removes a leftover partial record, when there is one. */
    method RemovePart(faults: bool) returns (ok: bool)
      requires Valid() && state.pc.ClearRecord?
      modifies this
      ensures Valid() && old(history) < history && (!faults ==> ok)
      ensures ok ==> state.pc == After(old(state)) && live == old(live).(recordPart := R.NoFile)
      ensures !ok ==> state.pc == Threw(Unavailable)
    {
      if live.recordPart.NoFile? {
        Think();
        ok := true;
      } else {
        ok := Call(DropPart, false, faults);
      }
    }

    /** A new record: part file, content, rename, sync. */
    method WriteRecord(faults: bool) returns (ok: bool)
      requires Valid() && state.pc.OpenRecord? && live.staged.target.Tree?
      modifies this
      ensures Valid() && old(history) < history && (!faults ==> ok)
      ensures ok ==> state.pc.CanonicalDirectory?
      ensures ok ==> live == old(live).(recordPart := R.NoFile, record := R.Exact(old(live).staged.target.id))
      ensures !ok ==> state.pc == Threw(Unavailable)
    {
      hide History, Take, SoundDisk, ApplyAll;
      ok := Call(CreatePart, true, faults);
      if !ok { return; }
      ok := Call(FillPart(live.staged.target.id), true, faults);
      if !ok { return; }
      ok := Call(RenamePart, true, faults);
      if !ok { return; }
      ok := Sync(true, faults);
    }

    /** `#writePublicationMarker`: the exact record in place already, or part file, content, rename, sync. */
    method WritePublicationMarker(faults: bool) returns (ok: bool)
      requires Valid() && state.pc.ClearRecord? && state.pc.exact == live.record.Exact? && live.staged.target.Tree?
      requires live.record.Exact? ==> live.record.id == live.staged.target.id
      modifies this
      ensures Valid() && old(history) < history && (!faults ==> ok)
      ensures ok ==> state.pc.CanonicalDirectory?
      ensures ok ==> live == old(live).(recordPart := R.NoFile, record := R.Exact(old(live).staged.target.id))
      ensures !ok ==> state.pc == Threw(Unavailable)
    {
      hide History, Take, SoundDisk, ApplyAll;
      var exact := live.record.Exact?;
      ok := RemovePart(faults);
      if !ok { return; }
      if exact {
        ok := Sync(false, faults);
      } else {
        ok := WriteRecord(faults);
      }
    }

    /** The atomic rename; a failed one is looked at again, and counts when the repository has moved. */
    method MoveRepository(faults: bool) returns (ok: bool)
      requires Valid() && state.pc.MoveOver?
      modifies this
      ensures Valid() && old(history) < history && (!faults ==> ok)
      ensures ok ==> state.pc.SyncMoved? && live == Apply(old(live), Move)
      ensures !ok ==> state.pc == Threw(Unavailable) && live == old(live)
    {
      var good: bool, took: bool := *, *;
      Known();
      LiveOfChange(state.disk, Move);
      if !faults || good {
        Record(Run(R.Done));
        live, ok := Apply(live, Move), true;
      } else {
        Record(Run(R.Failed(took, false)));
        live := if took then Apply(live, Move) else live;
        ok := live.published.target.Tree?;
      }
    }

    /** `#publishInactive`: it succeeds only with the repository durably published under its record, and fails
        only through a fault or because the repository is at neither place. */
    method PublishInactive(faults: bool) returns (r: Outcome<R.TreeId>)
      requires Valid() && Resting(state.pc)
      modifies this
      ensures Valid() && old(history) < history
      ensures r.Ok? ==>
                && live.published.target == R.Tree(r.value, true) && live.record == R.Exact(r.value)
                && Empty(live.staged) && live.existing == Some(r.value)
                && state.disk.log == [] && state.disk.durable == live
      ensures r.Err? ==> state.pc == Threw(r.failure)
      ensures !faults ==> (r.Ok? <==> Publishable(old(state)))
      ensures r.Ok? ==> Publishable(old(state))
      ensures !Publishable(old(state)) ==> live == old(live) && state.disk == old(state).disk
    {
      hide History, Take, SoundDisk, ApplyAll, Touched, Effect;
      Started(state);
      Record(StartPublish);
      Known();
      var staged, published := live.staged.target.Tree?, live.published.target.Tree?;
      Looked(state);
      Think();
      if staged == published {
        return Err(InvalidCheckpoint);
      }
      var failure;
      if published {
        failure := ConfirmPublished(faults);
      } else {
        failure := PublishStaged(faults);
      }
      if failure.Some? {
        r := Err(failure.value);
      } else {
        Known();
        r := Ok(live.published.target.id);
      }
    }

    /** The repository is published already: check it and sync. */
    method ConfirmPublished(faults: bool) returns (failure: Option<Failure>)
      requires Valid() && state.pc.CheckPublished? && live.published.target.Tree?
      modifies this
      ensures Valid() && old(history) < history && (!faults ==> failure.None?)
      ensures failure.None? ==> live == old(live) && live.published.target.Tree?
      ensures failure.None? ==> state.disk.log == [] && state.disk.durable == live
      ensures failure.Some? ==> state.pc == Threw(failure.value)
    {
      hide History, Take, SoundDisk, ApplyAll;
      var good := Verified(faults);
      if !good { return Some(InvalidCheckpoint); }
      Known();
      Think();
      var synced := Sync(false, faults);
      failure := if synced then None else Some(Unavailable);
    }

    method RecordStaged(faults: bool) returns (failure: Option<Failure>)
      requires Valid() && state.pc.VerifyStaged? && live.staged.target.Tree?
      modifies this
      ensures Valid() && old(history) < history && (!faults && OwnedStaged(old(state)) ==> failure.None?)
      ensures failure.None? ==> state.pc.CanonicalDirectory? && OwnedStaged(old(state))
      ensures failure.Some? ==> state.pc == Threw(failure.value)
      ensures !OwnedStaged(old(state)) ==> live == old(live) && state.disk == old(state).disk
    {
      hide History, Take, SoundDisk, ApplyAll, Touched, Effect, Apply;
      var attempt := AssertAttemptMarker();
      if !attempt { return Some(InvalidCheckpoint); }
      var good := Verified(faults);
      if !good { return Some(InvalidCheckpoint); }
      var go := MayContinue(faults);
      if !go { return Some(Aborted); }
      Known();
      Looked(state);
      Think();
      var written := WritePublicationMarker(faults);
      failure := if written then None else Some(Unavailable);
    }

    /** Verify, write the record, create the project directory, rename, sync, verify again. */
    method PublishStaged(faults: bool) returns (failure: Option<Failure>)
      requires Valid() && state.pc.VerifyStaged? && live.staged.target.Tree?
      modifies this
      ensures Valid() && old(history) < history && (!faults && OwnedStaged(old(state)) ==> failure.None?)
      ensures failure.None? ==> live.published.target.Tree? && state.disk.log == [] && state.disk.durable == live
      ensures failure.None? ==> OwnedStaged(old(state))
      ensures failure.Some? ==> state.pc == Threw(failure.value)
      ensures !OwnedStaged(old(state)) ==> live == old(live) && state.disk == old(state).disk
    {
      hide History, Take, SoundDisk, ApplyAll, Touched, Effect, Apply;
      failure := RecordStaged(faults);
      if failure.Some? { return; }
      var go := MayContinue(faults);
      if !go { return Some(Aborted); }
      var made := EnsureCanonical(faults);
      if !made { return Some(Unavailable); }
      go := MayContinue(faults);
      if !go { return Some(Aborted); }
      failure := MoveAndConfirm(faults);
    }

    method MoveAndConfirm(faults: bool) returns (failure: Option<Failure>)
      requires Valid() && state.pc.MoveOver?
      modifies this
      ensures Valid() && old(history) < history && (!faults ==> failure.None?)
      ensures failure.None? ==> live.published.target.Tree? && state.disk.log == [] && state.disk.durable == live
      ensures failure.Some? ==> state.pc == Threw(failure.value)
    {
      hide History, Take, SoundDisk, ApplyAll, Touched, Effect, Apply;
      var moved := MoveRepository(faults);
      if !moved { return Some(Unavailable); }
      var synced := Sync(false, faults);
      if !synced { return Some(Unavailable); }
      Known();
      var good := Verified(faults);
      if !good { return Some(InvalidCheckpoint); }
      Looked(state);
      Think();
      failure := None;
    }

    method EnsureCanonical(faults: bool) returns (ok: bool)
      requires Valid() && state.pc.CanonicalDirectory?
      modifies this
      ensures Valid() && old(history) < history && (!faults ==> ok)
      ensures ok ==> state.pc.MoveOver? && live == old(live).(canonical := true)
      ensures !ok ==> state.pc == Threw(Unavailable)
    {
      hide History, Take, SoundDisk, ApplyAll;
      ok := true;
      if live.canonical {
        Think();
      } else {
        ok := Call(MakeCanonical, false, faults);
      }
      if ok {
        ok := Sync(false, faults);
      }
    }

    /** What the removal asks about ownership: the publication record where there is one or must be one, and the
        attempt marker otherwise. */
    method AssertTargetOwned(site: Site) returns (ok: bool)
      requires Valid() && state.pc.Removing? && state.pc.site == site && state.pc.inner.Verify?
      ensures ok <==> R.OwnedTarget(View(state))
    {
      hide History, SoundDisk, ApplyAll;
      Known();
      R.SettledImage(live.At(site));
      var target := live.At(site).target;
      if site.Published? || !live.record.NoFile? {
        ok := target.Tree? && live.record == R.Exact(target.id);
      } else {
        ok := target.Tree? && target.id in owned;
      }
    }

    /** One step of the durable removal at a place. */
    method RemovalStep(site: Site, inner: R.Pc, faults: bool) returns (next: R.Pc)
      requires Valid() && state.pc.Removing? && state.pc.site == site && state.pc.inner == inner && !R.Resting(inner)
      modifies this
      ensures Valid() && old(history) < history && !next.Idle? && owned == old(owned)
      ensures !faults && next.Threw? ==> inner.Verify? && !R.OwnedTarget(View(old(state)))
      ensures inner.Verify? && !R.OwnedTarget(View(old(state))) ==> next == R.Threw(R.NotOwned)
      ensures EarlyStep(old(live).At(site), owned, inner, next)
      ensures (inner.Inspect? || inner.Verify?) && (next.Verify? || next.Threw?) ==> live == old(live) && state.disk == old(state).disk
      ensures state.pc == RemovalLeads(live, old(state).pc, next)
      ensures next.Returned? ==> R.Gone(live.At(site)) && state.disk.log == [] && state.disk.durable == live
      ensures !R.Resting(next) ==> R.Rank(next) < R.Rank(inner)
      ensures (site.Staged? ==> live.published == old(live).published)
              && (site.Published? ==> live.staged == old(live).staged)
    {
      hide History, ApplyAll, Sound, SoundDisk, Expects, R.RunStep, R.Rank, RemovalLeads, Lifted, Apply, R.Gone, R.Expects,
           R.OwnedTarget, EarlyStep;
      var isOwned := true;
      if inner.Verify? {
        isOwned := AssertTargetOwned(site);
      }
      var seen := R.State(R.Disk(live.At(site), []), inner, R.Book(0, owned, {}, {}, []));
      SeenAlike(View(state), seen);
      var io: R.Io := *;
      if !isOwned {
        io := R.Refused;
      } else if !faults || io.Partly? || R.RunStep(seen, io).None? {
        io := R.Done;
      }
      Offered(seen, io, isOwned);
      var t := R.RunStep(seen, io).value;
      Known();
      BookFree(View(state), seen, io);
      RemovalMoves(state, io);
      ViewInv(state);
      InnerBook(View(state), io);
      EarlyMoves(View(state), io);
      UnchangedEarly(state, io);
      Record(Run(io));
      live := Applied(live, site, t.disk.log);
      next := t.pc;
    }

    /** The durable removal at one place, run step by step with whatever faults. A foreign target is refused. */
    method RemoveAt(site: Site, sweep: bool, removed: bool, faults: bool) returns (r: Outcome<R.Result>)
      requires Valid() && state.pc == Removing(site, R.Inspect, sweep, removed)
      modifies this
      ensures Valid() && old(history) < history && (!faults ==> (r.Ok? <==> !Foreign(old(live).At(site), old(owned))))
      ensures r.Ok? ==>
                && state.pc == RemovalLeads(live, old(state).pc, R.Returned(r.value))
                && R.Gone(live.At(site)) && state.disk.log == [] && state.disk.durable == live
                && (site.Staged? ==> live.published == old(live).published)
                && (site.Published? ==> live.staged == old(live).staged)
      ensures r.Err? ==> state.pc == Threw(r.failure)
      ensures Foreign(old(live).At(site), old(owned)) ==>
                r.Err? && live == old(live) && state.disk == old(state).disk && (!faults ==> r == Err(Removal(R.NotOwned)))
    {
      hide History, Take, SoundDisk, ApplyAll, Sound, Expects, R.RunStep, R.Rank, R.OwnedTarget, View;
      var inner := R.Inspect;
      while true
        invariant Valid() && state.pc == Removing(site, inner, sweep, removed) && !R.Resting(inner)
        invariant old(history) <= history && owned == old(owned)
        invariant (site.Staged? ==> live.published == old(live).published)
                  && (site.Published? ==> live.staged == old(live).staged)
        invariant if inner.Inspect? || inner.Verify? then live == old(live) && state.disk == old(state).disk
                  else !Foreign(old(live).At(site), owned)
        decreases R.Rank(inner)
      {
        if inner.Verify? { VerifiesForeign(); }
        var next := RemovalStep(site, inner, faults);
        if next.Returned? {
          return Ok(next.result);
        } else if next.Threw? {
          return Err(Removal(next.failure));
        }
        inner := next;
      }
    }

    /** At the ownership check the target is foreign exactly when it is not owned. */
    ghost method VerifiesForeign()
      requires Valid() && state.pc.Removing? && state.pc.inner.Verify?
      ensures R.OwnedTarget(View(state)) <==> !Foreign(live.At(state.pc.site), owned)
    {
      hide History, SoundDisk, ApplyAll;
      Known();
      R.SettledImage(live.At(state.pc.site));
    }

    /** `#removeOwnedRepository`: where it succeeds nothing of the repository is left, durably; it fails only
        through a fault or because the staged repository is of another attempt, and then it has changed nothing. */
    method RemoveOwnedRepository(faults: bool) returns (r: Outcome<R.Result>)
      requires Valid() && Resting(state.pc)
      modifies this
      ensures Valid() && old(history) < history && (!faults ==> (r.Ok? <==> !Foreign(old(live).staged, old(owned))))
      ensures Foreign(old(live).staged, old(owned)) ==>
                r.Err? && live == old(live) && state.disk == old(state).disk && (!faults ==> r == Err(Removal(R.NotOwned)))
      ensures r.Ok? ==>
                && live.existing.None? && Empty(live.staged) && R.Gone(live.published)
                && state.pc == Returned(Discarded(r.value)) && state.disk.log == [] && state.disk.durable == live
      ensures r.Ok? && !(old(live).published.target.Tree? && old(live).staged.marker.Exact?) ==> R.Gone(live.staged)
      ensures r.Err? ==> state.pc == Threw(r.failure)
    {
      hide History, Take, SoundDisk, ApplyAll, R.RunStep, R.Sound, R.Expects, Touched;
      Started(state);
      Record(StartDiscard);
      Known();
      MarkersWhole(live, state.book);
      Looked(state);
      var staged, published := live.staged.target.Tree?, live.published.target.Tree?;
      Think();
      if staged {
        r := RemoveAt(Staged, false, false, faults);
        Known();
        return;
      }
      if published {
        r := RemoveAt(Published, false, false, faults);
        Known();
        return;
      }
      r := RemoveBoth(faults);
    }

    /** Neither place shows a repository: run the removal at each place that may hold leftovers. */
    method RemoveBoth(faults: bool) returns (r: Outcome<R.Result>)
      requires Valid() && state.pc == DiscardFrom(live) && live.staged.target.NoTree? && live.published.target.NoTree?
      modifies this
      ensures Valid() && old(history) <= history && (!faults ==> r.Ok?)
      ensures r.Ok? ==>
                && live.existing.None? && R.Gone(live.staged) && R.Gone(live.published)
                && state.pc == Returned(Discarded(r.value)) && state.disk.log == [] && state.disk.durable == live
      ensures r.Err? ==> state.pc == Threw(r.failure)
    {
      hide History, Take, SoundDisk, ApplyAll, R.RunStep, R.Sound, R.Expects, Touched;
      Known();
      var removed := false;
      if live.operation {
        var at := RemoveAt(Staged, true, false, faults);
        if at.Err? { return at; }
        removed := at.value.Removed?;
        Known();
      }
      if live.canonical {
        var at := RemoveAt(Published, true, removed, faults);
        if at.Err? { return at; }
        removed := removed || at.value.Removed?;
        Known();
      }
      if removed {
        return Ok(R.Removed);
      }
      var synced := Sync(false, faults);
      r := if synced then Ok(R.Replayed) else Err(Unavailable);
    }
  }

  datatype Outcome<T> = Ok(value: T) | Err(failure: Failure)

  lemma Started(s: State)
    requires Resting(s.pc)
    ensures Take(s, StartPublish) == Some(Goto(s, LookPublish)) && Take(s, StartDiscard) == Some(Goto(s, LookDiscard))
  {}

  lemma Looked(s: State)
    requires s.pc.LookPublish? || s.pc.LookDiscard? || s.pc.VerifyStaged? || s.pc.CheckMoved? || s.pc.CheckPublished?
    ensures Touched(s) == s.disk
  {}

  /** A removal's changes, seen from above. */
  function Applied(w: World, site: Site, changes: seq<R.Change>): World {
    if changes == [] then w else Apply(Applied(w, site, changes[..|changes| - 1]), In(site, changes[|changes| - 1]))
  }

  lemma {:induction false} LiftedLive(disk: Disk, site: Site, changes: seq<R.Change>)
    ensures Lifted(disk, site, changes).Live() == Applied(disk.Live(), site, changes)
    decreases |changes|
  {
    hide Apply;
    if changes != [] {
      var front := changes[..|changes| - 1];
      LiftedLive(disk, site, front);
      LiveOfChange(Lifted(disk, site, front), In(site, changes[|changes| - 1]));
    }
  }

  /** Of the bookkeeping only ownership steers a removal. */
  lemma BookFree(s: R.State, t: R.State, io: R.Io)
    requires s.disk == t.disk && s.pc == t.pc && s.book.owned == t.book.owned
    ensures R.RunStep(s, io).Some? == R.RunStep(t, io).Some?
    ensures R.RunStep(s, io).Some? ==>
              R.RunStep(s, io).value.disk == R.RunStep(t, io).value.disk
              && R.RunStep(s, io).value.pc == R.RunStep(t, io).value.pc
  {}

  lemma RemovalTurns(s: R.State, io: R.Io)
    requires R.Inv(s) && s.disk.log == [] && R.RunStep(s, io).Some? && !io.Partly?
    ensures var t := R.RunStep(s, io).value;
            && (io.Done? ==> !t.pc.Threw?) && (!io.Done? ==> t.pc.Threw?) && !t.pc.Idle?
            && (!R.Resting(t.pc) ==> R.Rank(t.pc) < R.Rank(s.pc))
  {
    if io.Done? {
      NeverThrows(s);
      RemovalDescends(s, io);
      RemovalEnds(s, io);
    }
  }

  /** Where the first steps of a removal lead: only past the ownership check does anything change, and a foreign
      target gets no further. */
  ghost predicate EarlyStep(d: R.Directory, owned: set<R.TreeId>, inner: R.Pc, next: R.Pc) {
    && !next.Inspect? && (next.Verify? ==> inner.Inspect?)
    && (inner.Inspect? && Foreign(d, owned) ==> next.Verify? || next.Threw?)
  }

  lemma SeenAlike(s: R.State, t: R.State)
    requires s.disk == t.disk && s.pc == t.pc && s.book.owned == t.book.owned
    ensures R.OwnedTarget(s) == R.OwnedTarget(t)
  {}

  lemma Offered(s: R.State, io: R.Io, isOwned: bool)
    requires !R.Resting(s.pc) && (s.pc.Verify? ==> (isOwned <==> R.OwnedTarget(s))) && (isOwned || s.pc.Verify?)
    requires if !isOwned then io.Refused? else io.Done? || R.RunStep(s, io).Some?
    ensures R.RunStep(s, io).Some?
  {}

  lemma EarlyMoves(s: R.State, io: R.Io)
    requires R.Inv(s) && s.disk.log == [] && !io.Partly? && R.RunStep(s, io).Some?
    ensures var t := R.RunStep(s, io).value;
            && EarlyStep(s.disk.durable, s.book.owned, s.pc, t.pc)
            && ((s.pc.Inspect? || s.pc.Verify?) ==> t.disk == s.disk)
            && (io.Refused? ==> t.pc == R.Threw(R.NotOwned))
  {
    R.LiveSound(s.disk, s.book);
    R.SettledImage(s.disk.durable);
  }

  lemma UnchangedEarly(s: State, io: R.Io)
    requires s.pc.Removing? && (s.pc.inner.Inspect? || s.pc.inner.Verify?) ==>
               R.RunStep(View(s), io).Some? && R.RunStep(View(s), io).value.disk == View(s).disk
    ensures s.pc.Removing? && (s.pc.inner.Inspect? || s.pc.inner.Verify?) ==>
              InnerStep(s, io).Some? && InnerStep(s, io).value.disk == s.disk
  {
    hide R.RunStep;
  }

  /** What one step of a removal does, seen from above. */
  lemma RemovalMoves(s: State, io: R.Io)
    requires Inv(s) && s.pc.Removing? && !io.Partly? && R.RunStep(View(s), io).Some?
    ensures Take(s, Run(io)).Some?
    ensures var t, inner := Take(s, Run(io)).value, R.RunStep(View(s), io).value; var site := s.pc.site;
            var w, v := s.disk.Live(), t.disk.Live();
            && v == Applied(w, site, inner.disk.log) && t.pc == RemovalLeads(v, s.pc, inner.pc)
            && (site.Staged? ==> v.published == w.published) && (site.Published? ==> v.staged == w.staged)
            && (inner.pc.Returned? ==> R.Gone(v.At(site)) && t.disk.log == [] && t.disk.durable == v)
            && (io.Done? ==> !inner.pc.Threw?) && !inner.pc.Idle?
            && (!R.Resting(inner.pc) ==> R.Rank(inner.pc) < R.Rank(s.pc.inner))
  {
    hide Sound, Apply, Lifted, R.Apply, R.Sound, R.ApplyAll, ApplyAll, R.RunStep, SoundDisk, R.Expects, Flushes, R.Rank,
         RemovalLeads, R.Gone, Applied;
    var view, site := View(s), s.pc.site;
    var inner := R.RunStep(view, io).value;
    ViewInv(s);
    R.StepKeeps(view, R.Run(io));
    StepModest(view, io);
    RemovalTurns(view, io);
    RemovalEnds(view, io);
    InnerBook(view, io);
    Forgetting(inner);
    var base := if Flushes(s.pc.inner, io) then s.disk.Synced() else s.disk;
    SyncKeeps(s.disk, s.book);
    BookGrows(base, s.book, inner.book.(removed := []));
    LiftedKeeps(base, site, inner, inner.book.(removed := []));
    LiftedLive(base, site, inner.disk.log);
    if inner.pc.Returned? {
      LiftedUnfold(base, site, []);
      SettledImage(s.disk.Live());
      R.SettledImage(s.disk.Live().At(site));
    }
  }
}
