/** The portability policy for Git trees, stated declaratively over every place an entry
    occupies in the full expansion of a root, and the explicit-stack walk that decides it.
    Case folding and the character rules for one segment are parameters. */
module TreePolicy {
  import opened Common

  type Oid = string

  const MAX_SEGMENT_UTF16 := 120
  const MAX_PATH_UTF16 := 240

  datatype TreeEntry = TreeEntry(mode: string, name: Text, oid: Oid)

  datatype ObjectType = TreeObject | BlobObject | CommitObject

  datatype Code = Invalid | Limit

  datatype Outcome = Pass | Fail(code: Code)

  /** `fold` is NFC normalisation followed by lower-casing; `forbidden` collects the control,
      punctuation, trailing and reserved-name tests on one segment. */
  datatype Rules = Rules(fold: Text -> Text, forbidden: Text -> bool)

  datatype Repository = Repository(trees: map<Oid, seq<TreeEntry>>, inventory: map<Oid, ObjectType>)

  datatype Limits = Limits(expandedEntries: nat, entriesPerTree: nat)

  function ValidateSegment(rules: Rules, segment: Text): Outcome {
    if |segment| > MAX_SEGMENT_UTF16 then Fail(Limit)
    else if segment == [] || segment == [DOT] || segment == [DOT, DOT] || rules.forbidden(segment) then Fail(Invalid)
    else Pass
  }

  predicate IsTreeMode(mode: string) { mode == "40000" || mode == "040000" }

  predicate IsBlobMode(mode: string) { mode == "100644" || mode == "100755" }

  predicate ModeAgrees(inventory: map<Oid, ObjectType>, entry: TreeEntry) {
    entry.oid in inventory
    && ((IsTreeMode(entry.mode) && inventory[entry.oid] == TreeObject)
        || (IsBlobMode(entry.mode) && inventory[entry.oid] == BlobObject))
  }

  // ----- the expansion of a root: every place reached by following entry indices

  type Place = seq<nat>

  ghost function TreeAt(trees: map<Oid, seq<TreeEntry>>, root: Oid, place: Place): Option<Oid>
    decreases |place|, 1
  {
    if place == [] then Some(root)
    else match EntryAt(trees, root, place)
      case None => None
      case Some(entry) => if IsTreeMode(entry.mode) then Some(entry.oid) else None
  }

  ghost function EntryAt(trees: map<Oid, seq<TreeEntry>>, root: Oid, place: Place): Option<TreeEntry>
    decreases |place|, 0
  {
    if place == [] then None
    else match TreeAt(trees, root, place[..|place| - 1])
      case None => None
      case Some(oid) =>
        if oid in trees && place[|place| - 1] < |trees[oid]| then Some(trees[oid][place[|place| - 1]]) else None
  }

  ghost function NamesAt(trees: map<Oid, seq<TreeEntry>>, root: Oid, place: Place): seq<Text>
    decreases |place|
  {
    if place == [] || EntryAt(trees, root, place).None? then []
    else NamesAt(trees, root, place[..|place| - 1]) + [EntryAt(trees, root, place).value.name]
  }

  ghost function PathAt(trees: map<Oid, seq<TreeEntry>>, root: Oid, place: Place): Text {
    Join(NamesAt(trees, root, place))
  }

  // ----- the policy

  ghost predicate EntryAllowed(rules: Rules, repo: Repository, root: Oid, place: Place)
    requires EntryAt(repo.trees, root, place).Some?
  {
    var entry := EntryAt(repo.trees, root, place).value;
    && ValidateSegment(rules, entry.name).Pass?
    && |PathAt(repo.trees, root, place)| <= MAX_PATH_UTF16
    && ModeAgrees(repo.inventory, entry)
  }

  ghost predicate RootAllowed(rules: Rules, repo: Repository, root: Oid) {
    && (forall p: Place :: TreeAt(repo.trees, root, p).Some? ==> TreeAt(repo.trees, root, p).value in repo.trees)
    && (forall p: Place :: EntryAt(repo.trees, root, p).Some? ==> EntryAllowed(rules, repo, root, p))
    && NoFoldedCollision(rules, repo, root)
  }

  ghost predicate NoFoldedCollision(rules: Rules, repo: Repository, root: Oid) {
    forall p: Place, q: Place ::
      EntryAt(repo.trees, root, p).Some? && EntryAt(repo.trees, root, q).Some?
      && rules.fold(PathAt(repo.trees, root, p)) == rules.fold(PathAt(repo.trees, root, q))
      ==> PathAt(repo.trees, root, p) == PathAt(repo.trees, root, q)
  }

  /** One entry of the expansion of all roots: which root, and where below it. */
  type Occurrence = (nat, Place)

  ghost predicate Occurs(repo: Repository, roots: seq<Oid>, o: Occurrence) {
    o.0 < |roots| && EntryAt(repo.trees, roots[o.0], o.1).Some?
  }

  /** No finite set of occurrences is larger than the budget: on a cyclic tree map the
      expansion is infinite, so this fails for every budget. */
  ghost predicate WithinBudget(repo: Repository, roots: seq<Oid>, budget: nat) {
    forall s: set<Occurrence> :: (forall o | o in s :: Occurs(repo, roots, o)) ==> |s| <= budget
  }

  ghost predicate Allowed(rules: Rules, repo: Repository, roots: seq<Oid>, budget: nat) {
    && (forall k | 0 <= k < |roots| :: RootAllowed(rules, repo, roots[k]))
    && WithinBudget(repo, roots, budget)
  }

  ghost predicate TreesWithinLimit(trees: map<Oid, seq<TreeEntry>>, limit: nat) {
    forall oid | oid in trees :: |trees[oid]| <= limit
  }

  // ----- steps down the expansion

  lemma StepDown(trees: map<Oid, seq<TreeEntry>>, root: Oid, place: Place, i: nat)
    requires TreeAt(trees, root, place).Some?
    requires TreeAt(trees, root, place).value in trees
    requires i < |trees[TreeAt(trees, root, place).value]|
    ensures var entry := trees[TreeAt(trees, root, place).value][i];
            && EntryAt(trees, root, place + [i]) == Some(entry)
            && NamesAt(trees, root, place + [i]) == NamesAt(trees, root, place) + [entry.name]
            && TreeAt(trees, root, place + [i]) == (if IsTreeMode(entry.mode) then Some(entry.oid) else None)
  {
    assert (place + [i])[..|place|] == place;
  }

  lemma NamesLength(trees: map<Oid, seq<TreeEntry>>, root: Oid, place: Place)
    requires TreeAt(trees, root, place).Some?
    ensures |NamesAt(trees, root, place)| == |place|
    decreases |place|
  {
    if place != [] {
      NamesLength(trees, root, place[..|place| - 1]);
    }
  }

  // ----- the walk

  datatype Frame = Frame(oid: Oid, prefix: Text)

  /** Ghost account of a walk in progress: the occurrences counted so far, the trees of the
      current root already expanded, and where each stack frame stands. */
  datatype Account = Account(counted: set<Occurrence>, expanded: set<Place>, frames: seq<Place>)

  ghost predicate Counted(rules: Rules, repo: Repository, roots: seq<Oid>, k: nat, count: nat,
                          comparisons: map<Text, Text>, counted: set<Occurrence>)
    requires k < |roots|
  {
    && |counted| == count
    && (forall o | o in counted :: Occurs(repo, roots, o))
    && (forall p: Place | (k, p) in counted ::
          && Occurs(repo, roots, (k, p))
          && EntryAllowed(rules, repo, roots[k], p)
          && rules.fold(PathAt(repo.trees, roots[k], p)) in comparisons
          && comparisons[rules.fold(PathAt(repo.trees, roots[k], p))] == PathAt(repo.trees, roots[k], p))
    && (forall c | c in comparisons :: Recorded(rules, repo, roots[k], k, counted, c, comparisons[c]))
    && (forall o | o in counted :: o.0 <= k)
  }

  ghost predicate Recorded(rules: Rules, repo: Repository, root: Oid, k: nat, counted: set<Occurrence>,
                           folded: Text, path: Text) {
    exists p: Place {:trigger (k, p) in counted} ::
      (k, p) in counted && PathAt(repo.trees, root, p) == path && rules.fold(path) == folded
  }

  ghost predicate StackStands(repo: Repository, root: Oid, stack: seq<Frame>, frames: seq<Place>) {
    && |frames| == |stack|
    && (forall i | 0 <= i < |stack| ::
          && TreeAt(repo.trees, root, frames[i]) == Some(stack[i].oid)
          && stack[i].prefix == PathAt(repo.trees, root, frames[i])
          && (frames[i] != [] ==> stack[i].prefix != []))
    && (forall i, j | 0 <= i < j < |frames| :: frames[i] != frames[j])
  }

  /** Every expanded tree has all its entries counted, and its subtrees are expanded or waiting. */
  ghost predicate Frontier(repo: Repository, root: Oid, k: nat, a: Account) {
    && ([] in a.expanded || [] in a.frames)
    && (forall p: Place | p in a.expanded ::
          && TreeAt(repo.trees, root, p).Some?
          && TreeAt(repo.trees, root, p).value in repo.trees
          && (forall i: nat | i < |repo.trees[TreeAt(repo.trees, root, p).value]| ::
                ChildHandled(repo, root, k, a, p, i)))
  }

  ghost predicate ChildHandled(repo: Repository, root: Oid, k: nat, a: Account, p: Place, i: nat) {
    (k, p + [i]) in a.counted
    && (TreeAt(repo.trees, root, p + [i]).Some? ==> p + [i] in a.expanded || p + [i] in a.frames)
  }

  /** `open` is the tree being read, of which the first `read` entries are handled. */
  ghost predicate Origins(k: nat, a: Account, open: Option<Place>, read: nat) {
    && (forall p: Place | (k, p) in a.counted ::
          p != [] && (p[..|p| - 1] in a.expanded
                      || (open == Some(p[..|p| - 1]) && p[|p| - 1] < read)))
    && (forall p: Place | p in a.expanded :: p == [] || (k, p) in a.counted)
    && (forall p: Place | p in a.frames :: p !in a.expanded && (p == [] || (k, p) in a.counted))
  }

  /** Roots before `k` are wholly counted and allowed. */
  ghost predicate RootsDone(rules: Rules, repo: Repository, roots: seq<Oid>, k: nat, counted: set<Occurrence>)
    requires k <= |roots|
  {
    forall j: nat | j < k ::
      && RootAllowed(rules, repo, roots[j])
      && (forall p: Place | EntryAt(repo.trees, roots[j], p).Some? :: (j, p) in counted)
  }

  // ----- what each rejection means

  ghost predicate BreaksEntryLimit(repo: Repository, root: Oid, place: Place)
    requires EntryAt(repo.trees, root, place).Some?
  {
    || |EntryAt(repo.trees, root, place).value.name| > MAX_SEGMENT_UTF16
    || |PathAt(repo.trees, root, place)| > MAX_PATH_UTF16
  }

  ghost predicate BreaksLimit(repo: Repository, roots: seq<Oid>, limits: Limits) {
    || !TreesWithinLimit(repo.trees, limits.entriesPerTree)
    || !WithinBudget(repo, roots, limits.expandedEntries)
    || (exists k: nat, p: Place ::
          k < |roots| && EntryAt(repo.trees, roots[k], p).Some? && BreaksEntryLimit(repo, roots[k], p))
  }

  ghost predicate BreaksEntry(rules: Rules, repo: Repository, root: Oid, place: Place)
    requires EntryAt(repo.trees, root, place).Some?
  {
    var entry := EntryAt(repo.trees, root, place).value;
    ValidateSegment(rules, entry.name) == Fail(Invalid) || !ModeAgrees(repo.inventory, entry)
  }

  ghost predicate BreaksShape(rules: Rules, repo: Repository, roots: seq<Oid>) {
    exists k: nat | k < |roots| ::
      || (exists p: Place :: TreeAt(repo.trees, roots[k], p).Some? && TreeAt(repo.trees, roots[k], p).value !in repo.trees)
      || (exists p: Place :: EntryAt(repo.trees, roots[k], p).Some? && BreaksEntry(rules, repo, roots[k], p))
      || !NoFoldedCollision(rules, repo, roots[k])
  }

  /** The rejection `code` is earned by some place of the expansion, or by its size. */
  ghost predicate Justified(rules: Rules, repo: Repository, roots: seq<Oid>, limits: Limits, code: Code) {
    match code
    case Limit => BreaksLimit(repo, roots, limits)
    case Invalid => BreaksShape(rules, repo, roots)
  }

  ghost predicate Walking(rules: Rules, repo: Repository, roots: seq<Oid>, k: nat, count: nat,
                          comparisons: map<Text, Text>, stack: seq<Frame>, a: Account, open: Option<Place>, read: nat)
    requires k < |roots|
  {
    && RootsDone(rules, repo, roots, k, a.counted)
    && Counted(rules, repo, roots, k, count, comparisons, a.counted)
    && StackStands(repo, roots[k], stack, a.frames)
    && Origins(k, a, open, read)
  }

  // ----- one entry

  datatype Checked = Rejected(code: Code) | Accepted(path: Text)

  /** The tests the walk makes on one entry, in order, after counting it. */
  function CheckEntry(rules: Rules, inventory: map<Oid, ObjectType>, comparisons: map<Text, Text>,
                      prefix: Text, entry: TreeEntry): Checked
  {
    var segment := ValidateSegment(rules, entry.name);
    if segment.Fail? then Rejected(segment.code)
    else
      var path := if prefix == [] then entry.name else prefix + [SLASH] + entry.name;
      if |path| > MAX_PATH_UTF16 then Rejected(Limit)
      else if rules.fold(path) in comparisons && comparisons[rules.fold(path)] != path then Rejected(Invalid)
      else if !ModeAgrees(inventory, entry) then Rejected(Invalid)
      else Accepted(path)
  }

  /** The frame being read stands at `place`, which was popped from the stack. */
  ghost predicate Reading(rules: Rules, repo: Repository, roots: seq<Oid>, k: nat, a: Account, place: Place,
                          current: Frame, entries: seq<TreeEntry>)
    requires k < |roots|
  {
    && TreeAt(repo.trees, roots[k], place) == Some(current.oid)
    && current.oid in repo.trees && repo.trees[current.oid] == entries
    && current.prefix == PathAt(repo.trees, roots[k], place) && (place != [] ==> current.prefix != [])
    && place !in a.expanded && place !in a.frames && (place == [] || (k, place) in a.counted)
  }

  lemma EntryHere(rules: Rules, repo: Repository, roots: seq<Oid>, k: nat, a: Account, place: Place,
                  current: Frame, entries: seq<TreeEntry>, i: nat)
    requires k < |roots| && i < |entries|
    requires Reading(rules, repo, roots, k, a, place, current, entries)
    requires Origins(k, a, Some(place), i)
    ensures var entry := entries[i]; var here := place + [i];
            && EntryAt(repo.trees, roots[k], here) == Some(entry)
            && TreeAt(repo.trees, roots[k], here) == (if IsTreeMode(entry.mode) then Some(entry.oid) else None)
            && PathAt(repo.trees, roots[k], here)
               == (if current.prefix == [] then entry.name else current.prefix + [SLASH] + entry.name)
            && (k, here) !in a.counted && here !in a.frames && here !in a.expanded && here != place
  {
    var here := place + [i];
    StepDown(repo.trees, roots[k], place, i);
    assert here[..|here| - 1] == place && here[|here| - 1] == i;
    JoinAppend(NamesAt(repo.trees, roots[k], place), entries[i].name);
    NamesLength(repo.trees, roots[k], place);
    assert |here| != |place|;
  }

  lemma RejectionJustified(rules: Rules, repo: Repository, roots: seq<Oid>, k: nat, count: nat,
                           comparisons: map<Text, Text>, stack: seq<Frame>, a: Account, place: Place,
                           current: Frame, entries: seq<TreeEntry>, i: nat, limits: Limits)
    requires k < |roots| && i < |entries|
    requires Reading(rules, repo, roots, k, a, place, current, entries)
    requires Walking(rules, repo, roots, k, count, comparisons, stack, a, Some(place), i)
    ensures var c := CheckEntry(rules, repo.inventory, comparisons, current.prefix, entries[i]);
            c.Rejected? ==> Justified(rules, repo, roots, limits, c.code)
  {
    hide TreeAt, EntryAt, NamesAt, StackStands, RootsDone, EntryAllowed, Join;
    EntryHere(rules, repo, roots, k, a, place, current, entries, i);
    var root, here, entry := roots[k], place + [i], entries[i];
    var path, folded := PathAt(repo.trees, root, here), rules.fold(PathAt(repo.trees, root, here));
    if |entry.name| > MAX_SEGMENT_UTF16 || |path| > MAX_PATH_UTF16 {
      assert BreaksEntryLimit(repo, root, here);
    } else if ValidateSegment(rules, entry.name) == Fail(Invalid) || !ModeAgrees(repo.inventory, entry) {
      assert BreaksEntry(rules, repo, root, here);
    } else if folded in comparisons && comparisons[folded] != path {
      assert Recorded(rules, repo, root, k, a.counted, folded, comparisons[folded]);
      CollisionFound(rules, repo, root, k, a.counted, here, folded, comparisons[folded]);
    }
  }

  lemma CollisionFound(rules: Rules, repo: Repository, root: Oid, k: nat, counted: set<Occurrence>, here: Place,
                       folded: Text, path: Text)
    requires Recorded(rules, repo, root, k, counted, folded, path)
    requires forall p: Place | (k, p) in counted :: EntryAt(repo.trees, root, p).Some?
    requires EntryAt(repo.trees, root, here).Some?
    requires rules.fold(PathAt(repo.trees, root, here)) == folded && PathAt(repo.trees, root, here) != path
    ensures !NoFoldedCollision(rules, repo, root)
  {}

  lemma OverBudget(rules: Rules, repo: Repository, roots: seq<Oid>, k: nat, count: nat, comparisons: map<Text, Text>,
                   stack: seq<Frame>, a: Account, place: Place, current: Frame, entries: seq<TreeEntry>, i: nat,
                   limits: Limits)
    requires k < |roots| && i < |entries|
    requires Reading(rules, repo, roots, k, a, place, current, entries)
    requires Walking(rules, repo, roots, k, count, comparisons, stack, a, Some(place), i)
    requires count == limits.expandedEntries
    ensures Justified(rules, repo, roots, limits, Limit)
  {
    hide TreeAt, EntryAt, NamesAt, PathAt, StackStands, Reading, RootsDone, EntryAllowed;
    EntryHere(rules, repo, roots, k, a, place, current, entries, i);
    var s := a.counted + {(k, place + [i])};
    assert |s| == count + 1;
    assert forall o | o in s :: Occurs(repo, roots, o);
    assert !WithinBudget(repo, roots, limits.expandedEntries);
  }

  function Pushed(stack: seq<Frame>, entry: TreeEntry, path: Text): seq<Frame> {
    if IsTreeMode(entry.mode) then stack + [Frame(entry.oid, path)] else stack
  }

  ghost function Tallied(a: Account, k: nat, here: Place, entry: TreeEntry): Account {
    Account(a.counted + {(k, here)}, a.expanded, if IsTreeMode(entry.mode) then a.frames + [here] else a.frames)
  }

  lemma StackTallied(repo: Repository, root: Oid, stack: seq<Frame>, a: Account, k: nat, here: Place,
                     entry: TreeEntry, path: Text)
    requires StackStands(repo, root, stack, a.frames) && here !in a.frames && here != [] && path != []
    requires PathAt(repo.trees, root, here) == path
    requires IsTreeMode(entry.mode) ==> TreeAt(repo.trees, root, here) == Some(entry.oid)
    ensures StackStands(repo, root, Pushed(stack, entry, path), Tallied(a, k, here, entry).frames)
  {}

  lemma ChildrenTallied(repo: Repository, root: Oid, k: nat, a: Account, place: Place, i: nat, entry: TreeEntry)
    requires forall j: nat | j < i :: ChildHandled(repo, root, k, a, place, j)
    requires TreeAt(repo.trees, root, place + [i]).Some? ==> IsTreeMode(entry.mode)
    ensures forall j: nat | j < i + 1 :: ChildHandled(repo, root, k, Tallied(a, k, place + [i], entry), place, j)
  {
    forall j: nat | j < i + 1
      ensures ChildHandled(repo, root, k, Tallied(a, k, place + [i], entry), place, j)
    {
      if j < i {
        assert ChildHandled(repo, root, k, a, place, j);
      }
    }
  }

  lemma RootsDoneGrows(rules: Rules, repo: Repository, roots: seq<Oid>, k: nat,
                       counted: set<Occurrence>, more: set<Occurrence>)
    requires k <= |roots| && counted <= more
    requires RootsDone(rules, repo, roots, k, counted)
    ensures RootsDone(rules, repo, roots, k, more)
  {}

  lemma OpenTree(rules: Rules, repo: Repository, roots: seq<Oid>, k: nat, count: nat,
                 comparisons: map<Text, Text>, stack: seq<Frame>, a: Account, place: Place)
    requires k < |roots|
    requires Walking(rules, repo, roots, k, count, comparisons, stack, a, None, 0)
    ensures Walking(rules, repo, roots, k, count, comparisons, stack, a, Some(place), 0)
  {}

  lemma AcceptedAllowed(rules: Rules, repo: Repository, roots: seq<Oid>, k: nat, comparisons: map<Text, Text>,
                        a: Account, place: Place, current: Frame, entries: seq<TreeEntry>, i: nat)
    requires k < |roots| && i < |entries|
    requires Reading(rules, repo, roots, k, a, place, current, entries)
    requires Origins(k, a, Some(place), i)
    requires CheckEntry(rules, repo.inventory, comparisons, current.prefix, entries[i]).Accepted?
    ensures var path := CheckEntry(rules, repo.inventory, comparisons, current.prefix, entries[i]).path;
            var here := place + [i];
            && path != [] && PathAt(repo.trees, roots[k], here) == path
            && Occurs(repo, roots, (k, here)) && EntryAllowed(rules, repo, roots[k], here)
            && (rules.fold(path) in comparisons ==> comparisons[rules.fold(path)] == path)
  {
    EntryHere(rules, repo, roots, k, a, place, current, entries, i);
  }

  /** An accepted entry is counted, compared and, if it is a tree, put on the stack. */
  lemma EntryTallied(rules: Rules, repo: Repository, roots: seq<Oid>, k: nat, count: nat,
                     comparisons: map<Text, Text>, stack: seq<Frame>, a: Account, place: Place,
                     current: Frame, entries: seq<TreeEntry>, i: nat)
    requires k < |roots| && i < |entries|
    requires Reading(rules, repo, roots, k, a, place, current, entries)
    requires Walking(rules, repo, roots, k, count, comparisons, stack, a, Some(place), i)
    requires CheckEntry(rules, repo.inventory, comparisons, current.prefix, entries[i]).Accepted?
    ensures var path := CheckEntry(rules, repo.inventory, comparisons, current.prefix, entries[i]).path;
            var after := Tallied(a, k, place + [i], entries[i]);
            && Walking(rules, repo, roots, k, count + 1, comparisons[rules.fold(path) := path],
                       Pushed(stack, entries[i], path), after, Some(place), i + 1)
            && Reading(rules, repo, roots, k, after, place, current, entries)
            && (TreeAt(repo.trees, roots[k], place + [i]).Some? ==> IsTreeMode(entries[i].mode))
  {
    hide Counted, StackStands, Origins, EntryAllowed, CheckEntry, RootsDone, PathAt, Pushed, RootAllowed;
    var path := CheckEntry(rules, repo.inventory, comparisons, current.prefix, entries[i]).path;
    RootsDoneGrows(rules, repo, roots, k, a.counted, Tallied(a, k, place + [i], entries[i]).counted);
    AcceptedAllowed(rules, repo, roots, k, comparisons, a, place, current, entries, i);
    EntryHere(rules, repo, roots, k, a, place, current, entries, i);
    CountOne(rules, repo, roots, k, count, comparisons, a.counted, place + [i]);
    StackTallied(repo, roots[k], stack, a, k, place + [i], entries[i], path);
    OriginsTallied(k, a, place, i, entries[i]);
  }

  lemma OriginsTallied(k: nat, a: Account, place: Place, i: nat, entry: TreeEntry)
    requires Origins(k, a, Some(place), i) && place + [i] !in a.expanded
    ensures Origins(k, Tallied(a, k, place + [i], entry), Some(place), i + 1)
  {
    var here := place + [i];
    assert here[..|here| - 1] == place && here[|here| - 1] == i;
  }

  /** Counting one more allowed occurrence keeps the tally and the comparison map exact. */
  lemma CountOne(rules: Rules, repo: Repository, roots: seq<Oid>, k: nat, count: nat,
                 comparisons: map<Text, Text>, counted: set<Occurrence>, here: Place)
    requires k < |roots|
    requires Counted(rules, repo, roots, k, count, comparisons, counted)
    requires (k, here) !in counted && Occurs(repo, roots, (k, here)) && EntryAllowed(rules, repo, roots[k], here)
    requires var path := PathAt(repo.trees, roots[k], here);
             rules.fold(path) in comparisons ==> comparisons[rules.fold(path)] == path
    ensures var path := PathAt(repo.trees, roots[k], here);
            Counted(rules, repo, roots, k, count + 1, comparisons[rules.fold(path) := path], counted + {(k, here)})
  {
    var path := PathAt(repo.trees, roots[k], here);
    var after, more := comparisons[rules.fold(path) := path], counted + {(k, here)};
    forall c | c in after
      ensures Recorded(rules, repo, roots[k], k, more, c, after[c])
    {
      if c == rules.fold(path) {
        assert (k, here) in more;
      } else {
        assert Recorded(rules, repo, roots[k], k, counted, c, comparisons[c]);
        var p: Place :| (k, p) in counted && PathAt(repo.trees, roots[k], p) == comparisons[c]
                        && rules.fold(comparisons[c]) == c;
        assert (k, p) in more;
      }
    }
  }

  /** Reads the entries of one tree: the walk's inner loop. */
  method ReadTree(rules: Rules, repo: Repository, ghost roots: seq<Oid>, ghost k: nat, ghost place: Place,
                  current: Frame, entries: seq<TreeEntry>, limits: Limits, count: nat,
                  comparisons: map<Text, Text>, stack: seq<Frame>, ghost a: Account)
    returns (r: Outcome, count': nat, comparisons': map<Text, Text>, stack': seq<Frame>, ghost a': Account)
    requires k < |roots| && count <= limits.expandedEntries
    requires Walking(rules, repo, roots, k, count, comparisons, stack, a, None, 0)
    requires Reading(rules, repo, roots, k, a, place, current, entries)
    ensures r.Fail? ==> Justified(rules, repo, roots, limits, r.code)
    ensures r.Pass? ==> count' == count + |entries| <= limits.expandedEntries
    ensures r.Pass? ==> Walking(rules, repo, roots, k, count', comparisons', stack', a', Some(place), |entries|)
    ensures r.Pass? ==> Reading(rules, repo, roots, k, a', place, current, entries)
    ensures r.Pass? ==> a'.expanded == a.expanded && a.counted <= a'.counted && a.frames <= a'.frames
    ensures r.Pass? ==> forall i: nat | i < |entries| :: ChildHandled(repo, roots[k], k, a', place, i)
    ensures r.Pass? && entries == [] ==> stack' == stack
  {
    hide Walking, Justified, ChildHandled, Reading;
    count', comparisons', stack', a' := count, comparisons, stack, a;
    OpenTree(rules, repo, roots, k, count, comparisons, stack, a, place);
    for i := 0 to |entries|
      invariant count' == count + i <= limits.expandedEntries
      invariant Walking(rules, repo, roots, k, count', comparisons', stack', a', Some(place), i)
      invariant Reading(rules, repo, roots, k, a', place, current, entries)
      invariant a'.expanded == a.expanded && a.counted <= a'.counted && a.frames <= a'.frames
      invariant forall j: nat | j < i :: ChildHandled(repo, roots[k], k, a', place, j)
      invariant i == 0 ==> stack' == stack
    {
      if count' + 1 > limits.expandedEntries {
        OverBudget(rules, repo, roots, k, count', comparisons', stack', a', place, current, entries, i, limits);
        return Fail(Limit), count', comparisons', stack', a';
      }
      count' := count' + 1;
      var checked := CheckEntry(rules, repo.inventory, comparisons', current.prefix, entries[i]);
      if checked.Rejected? {
        RejectionJustified(rules, repo, roots, k, count' - 1, comparisons', stack', a', place, current, entries, i,
                           limits);
        return Fail(checked.code), count', comparisons', stack', a';
      }
      EntryTallied(rules, repo, roots, k, count' - 1, comparisons', stack', a', place, current, entries, i);
      ChildrenTallied(repo, roots[k], k, a', place, i, entries[i]);
      comparisons' := comparisons'[rules.fold(checked.path) := checked.path];
      stack' := Pushed(stack', entries[i], checked.path);
      a' := Tallied(a', k, place + [i], entries[i]);
    }
    r := Pass;
  }

  // ----- one root, then all of them

  ghost predicate AtRoot(rules: Rules, repo: Repository, roots: seq<Oid>, k: nat, count: nat,
                         comparisons: map<Text, Text>, stack: seq<Frame>, a: Account)
    requires k < |roots|
  {
    Walking(rules, repo, roots, k, count, comparisons, stack, a, None, 0) && Frontier(repo, roots[k], k, a)
  }

  lemma StartRoot(rules: Rules, repo: Repository, roots: seq<Oid>, k: nat, count: nat, counted: set<Occurrence>)
    requires k < |roots| && |counted| == count
    requires RootsDone(rules, repo, roots, k, counted)
    requires forall o | o in counted :: Occurs(repo, roots, o) && o.0 < k
    ensures AtRoot(rules, repo, roots, k, count, map[], [Frame(roots[k], [])], Account(counted, {}, [[]]))
  {
    var first: seq<Place> := [[]];
    assert first[0] == [];
  }

  lemma PopStands(repo: Repository, root: Oid, stack: seq<Frame>, frames: seq<Place>)
    requires StackStands(repo, root, stack, frames) && stack != []
    ensures StackStands(repo, root, stack[..|stack| - 1], frames[..|stack| - 1])
    ensures frames[|stack| - 1] !in frames[..|stack| - 1]
    ensures forall p: Place | p in frames :: p == frames[|stack| - 1] || p in frames[..|stack| - 1]
  {
    hide TreeAt, EntryAt, NamesAt, PathAt;
    var n := |stack| - 1;
    forall p: Place | p in frames
      ensures p == frames[n] || p in frames[..n]
    {
      var i :| 0 <= i < |frames| && frames[i] == p;
      assert i < n ==> frames[..n][i] == p;
    }
  }

  lemma PopOrigins(k: nat, a: Account, n: nat)
    requires Origins(k, a, None, 0) && n <= |a.frames|
    ensures Origins(k, a.(frames := a.frames[..n]), None, 0)
  {}

  /** The popped frame is ready to be read. */
  lemma PopFrame(rules: Rules, repo: Repository, roots: seq<Oid>, k: nat, count: nat,
                 comparisons: map<Text, Text>, stack: seq<Frame>, a: Account)
    requires k < |roots| && stack != []
    requires AtRoot(rules, repo, roots, k, count, comparisons, stack, a)
    ensures |a.frames| == |stack|
    ensures var place, current := a.frames[|stack| - 1], stack[|stack| - 1];
            var rest := a.(frames := a.frames[..|stack| - 1]);
            && Walking(rules, repo, roots, k, count, comparisons, stack[..|stack| - 1], rest, None, 0)
            && TreeAt(repo.trees, roots[k], place) == Some(current.oid)
            && (current.oid in repo.trees ==>
                  Reading(rules, repo, roots, k, rest, place, current, repo.trees[current.oid]))
            && (forall p: Place | p in a.frames :: p == place || p in rest.frames)
  {
    hide TreeAt, EntryAt, NamesAt, PathAt, Counted, RootsDone, Frontier;
    PopStands(repo, roots[k], stack, a.frames);
    PopOrigins(k, a, |stack| - 1);
    hide StackStands;
  }

  /** A tree whose entries are all handled joins the expanded ones. */
  lemma TreeExpanded(repo: Repository, root: Oid, k: nat, before: Account, rest: Account, after: Account,
                     place: Place, n: nat)
    requires Frontier(repo, root, k, before)
    requires rest.counted == before.counted && rest.expanded == before.expanded
    requires forall p: Place | p in before.frames :: p == place || p in rest.frames
    requires after.expanded == rest.expanded && rest.counted <= after.counted && rest.frames <= after.frames
    requires place !in after.frames
    requires TreeAt(repo.trees, root, place).Some? && TreeAt(repo.trees, root, place).value in repo.trees
    requires n == |repo.trees[TreeAt(repo.trees, root, place).value]|
    requires forall i: nat | i < n :: ChildHandled(repo, root, k, after, place, i)
    ensures Frontier(repo, root, k, after.(expanded := after.expanded + {place}))
  {
    hide TreeAt, EntryAt;
    var next := after.(expanded := after.expanded + {place});
    forall p: Place | p in next.expanded
      ensures forall i: nat | i < |repo.trees[TreeAt(repo.trees, root, p).value]| :: ChildHandled(repo, root, k, next, p, i)
    {
      forall i: nat | i < |repo.trees[TreeAt(repo.trees, root, p).value]|
        ensures ChildHandled(repo, root, k, next, p, i)
      {
        if p == place {
          assert ChildHandled(repo, root, k, after, place, i);
        } else {
          assert ChildHandled(repo, root, k, before, p, i);
        }
      }
    }
  }

  lemma OriginsExpanded(k: nat, after: Account, place: Place, n: nat)
    requires Origins(k, after, Some(place), n) && place !in after.frames && (place == [] || (k, place) in after.counted)
    ensures Origins(k, after.(expanded := after.expanded + {place}), None, 0)
  {}

  /** With nothing left on the stack, every tree of the expansion has been expanded. */
  lemma {:induction false} AllExpanded(repo: Repository, root: Oid, k: nat, a: Account, place: Place)
    requires Frontier(repo, root, k, a) && a.frames == []
    requires TreeAt(repo.trees, root, place).Some?
    ensures place in a.expanded
    decreases |place|
  {
    if place != [] {
      var parent, i := place[..|place| - 1], place[|place| - 1];
      assert place == parent + [i];
      AllExpanded(repo, root, k, a, parent);
      assert ChildHandled(repo, root, k, a, parent, i);
    }
  }

  lemma AllCounted(repo: Repository, root: Oid, k: nat, a: Account, place: Place)
    requires Frontier(repo, root, k, a) && a.frames == []
    requires EntryAt(repo.trees, root, place).Some?
    ensures (k, place) in a.counted
  {
    var parent, i := place[..|place| - 1], place[|place| - 1];
    assert place == parent + [i];
    AllExpanded(repo, root, k, a, parent);
    assert ChildHandled(repo, root, k, a, parent, i);
  }

  /** An empty stack means the root is allowed and wholly counted. */
  lemma RootFinished(rules: Rules, repo: Repository, roots: seq<Oid>, k: nat, count: nat,
                     comparisons: map<Text, Text>, a: Account)
    requires k < |roots|
    requires AtRoot(rules, repo, roots, k, count, comparisons, [], a)
    ensures RootsDone(rules, repo, roots, k + 1, a.counted)
  {
    var root := roots[k];
    forall p: Place | TreeAt(repo.trees, root, p).Some?
      ensures TreeAt(repo.trees, root, p).value in repo.trees
    {
      AllExpanded(repo, root, k, a, p);
    }
    forall p: Place | EntryAt(repo.trees, root, p).Some?
      ensures (k, p) in a.counted
    {
      AllCounted(repo, root, k, a, p);
    }
    assert NoFoldedCollision(rules, repo, root);
    assert RootAllowed(rules, repo, root);
  }

  /** Whatever was counted is all there is, so a count within budget is a proof of the budget. */
  lemma BudgetKept(rules: Rules, repo: Repository, roots: seq<Oid>, counted: set<Occurrence>, budget: nat)
    requires RootsDone(rules, repo, roots, |roots|, counted) && |counted| <= budget
    ensures Allowed(rules, repo, roots, budget)
  {
    forall s: set<Occurrence> | forall o | o in s :: Occurs(repo, roots, o)
      ensures |s| <= budget
    {
      assert forall o | o in s :: o in counted by {
        forall o | o in s ensures o in counted { assert Occurs(repo, roots, o); }
      }
      SubsetCardinality(s, counted);
    }
  }

  /** One turn of the walk's outer loop: pop a frame and read its tree. */
  method ExpandFrame(rules: Rules, repo: Repository, ghost roots: seq<Oid>, ghost k: nat, limits: Limits, count: nat,
                     comparisons: map<Text, Text>, stack: seq<Frame>, ghost a: Account)
    returns (r: Outcome, count': nat, comparisons': map<Text, Text>, stack': seq<Frame>, ghost a': Account)
    requires k < |roots| && count <= limits.expandedEntries && stack != []
    requires AtRoot(rules, repo, roots, k, count, comparisons, stack, a)
    ensures r.Fail? ==> Justified(rules, repo, roots, limits, r.code)
    ensures r.Pass? ==> count <= count' <= limits.expandedEntries && (count' == count ==> |stack'| < |stack|)
    ensures r.Pass? ==> AtRoot(rules, repo, roots, k, count', comparisons', stack', a')
  {
    var current := stack[|stack| - 1];
    ghost var place := a.frames[|stack| - 1];
    ghost var rest := a.(frames := a.frames[..|stack| - 1]);
    PopFrame(rules, repo, roots, k, count, comparisons, stack, a);
    count', comparisons', stack', a' := count, comparisons, stack[..|stack| - 1], rest;
    if current.oid !in repo.trees {
      return Fail(Invalid), count', comparisons', stack', a';
    }
    hide Justified, ChildHandled, TreeAt;
    r, count', comparisons', stack', a' :=
      ReadTree(rules, repo, roots, k, place, current, repo.trees[current.oid], limits, count, comparisons, stack', rest);
    if r.Pass? {
      ghost var n := |repo.trees[current.oid]|;
      TreeExpanded(repo, roots[k], k, a, rest, a', place, n);
      OriginsExpanded(k, a', place, n);
      hide Frontier, Counted, StackStands, RootsDone, Origins;
      a' := a'.(expanded := a'.expanded + {place});
    }
  }

  /** The walk over all roots. */
  method WalkRoots(rules: Rules, repo: Repository, roots: seq<Oid>, limits: Limits) returns (r: Outcome)
    ensures r.Pass? ==> Allowed(rules, repo, roots, limits.expandedEntries)
    ensures r.Fail? ==> Justified(rules, repo, roots, limits, r.code)
  {
    hide Walking, Frontier, Counted, Justified, RootAllowed;
    var count := 0;
    ghost var counted: set<Occurrence> := {};
    for k := 0 to |roots|
      invariant |counted| == count <= limits.expandedEntries
      invariant RootsDone(rules, repo, roots, k, counted)
      invariant forall o | o in counted :: Occurs(repo, roots, o) && o.0 < k
    {
      var comparisons: map<Text, Text> := map[];
      var stack := [Frame(roots[k], [])];
      ghost var a := Account(counted, {}, [[]]);
      StartRoot(rules, repo, roots, k, count, counted);
      while stack != []
        invariant count <= limits.expandedEntries
        invariant AtRoot(rules, repo, roots, k, count, comparisons, stack, a)
        decreases limits.expandedEntries - count, |stack|
      {
        var step;
        step, count, comparisons, stack, a := ExpandFrame(rules, repo, roots, k, limits, count, comparisons, stack, a);
        if step.Fail? {
          return step;
        }
      }
      RootFinished(rules, repo, roots, k, count, comparisons, a);
      CountedSoFar(rules, repo, roots, k, count, comparisons, a);
      counted := a.counted;
    }
    BudgetKept(rules, repo, roots, counted, limits.expandedEntries);
    r := Pass;
  }

  lemma CountedSoFar(rules: Rules, repo: Repository, roots: seq<Oid>, k: nat, count: nat,
                     comparisons: map<Text, Text>, a: Account)
    requires k < |roots|
    requires AtRoot(rules, repo, roots, k, count, comparisons, [], a)
    ensures |a.counted| == count && forall o | o in a.counted :: Occurs(repo, roots, o) && o.0 < k + 1
  {}

  /** A justified rejection is never of an allowed forest. */
  lemma JustifiedRefutes(rules: Rules, repo: Repository, roots: seq<Oid>, limits: Limits, code: Code)
    requires Justified(rules, repo, roots, limits, code)
    ensures !(Allowed(rules, repo, roots, limits.expandedEntries) && TreesWithinLimit(repo.trees, limits.entriesPerTree))
  {
    if Allowed(rules, repo, roots, limits.expandedEntries) {
      forall k: nat, p: Place | k < |roots| && EntryAt(repo.trees, roots[k], p).Some?
        ensures !BreaksEntryLimit(repo, roots[k], p) && !BreaksEntry(rules, repo, roots[k], p)
      {
        assert RootAllowed(rules, repo, roots[k]);
      }
    }
  }

  /** The importer's check of a whole repository: every tree small enough, every root allowed. */
  method ValidateTrees(rules: Rules, repo: Repository, roots: seq<Oid>, limits: Limits) returns (r: Outcome)
    ensures r.Pass? <==> Allowed(rules, repo, roots, limits.expandedEntries)
                         && TreesWithinLimit(repo.trees, limits.entriesPerTree)
    ensures r.Fail? ==> Justified(rules, repo, roots, limits, r.code)
  {
    var oids := repo.trees.Keys;
    while oids != {}
      invariant oids <= repo.trees.Keys
      invariant forall oid | oid in repo.trees && oid !in oids :: |repo.trees[oid]| <= limits.entriesPerTree
    {
      var oid :| oid in oids;
      if |repo.trees[oid]| > limits.entriesPerTree {
        return Fail(Limit);
      }
      oids := oids - {oid};
    }
    r := WalkRoots(rules, repo, roots, limits);
    if r.Fail? {
      JustifiedRefutes(rules, repo, roots, limits, r.code);
    }
  }

  // ----- cyclic trees

  /** Below a place, the expansion is that of the tree standing there. */
  lemma {:induction false} Below(trees: map<Oid, seq<TreeEntry>>, root: Oid, place: Place, oid: Oid, rest: Place)
    requires TreeAt(trees, root, place) == Some(oid)
    ensures TreeAt(trees, root, place + rest) == TreeAt(trees, oid, rest)
    ensures rest != [] ==> EntryAt(trees, root, place + rest) == EntryAt(trees, oid, rest)
    decreases |rest|
  {
    if rest == [] {
      assert place + rest == place;
    } else {
      var front := rest[..|rest| - 1];
      Below(trees, root, place, oid, front);
      assert (place + rest)[..|place + rest| - 1] == place + front;
    }
  }

  function Laps(lap: Place, n: nat): Place { if n == 0 then [] else Laps(lap, n - 1) + lap }

  lemma {:induction false} LapsReturn(trees: map<Oid, seq<TreeEntry>>, oid: Oid, lap: Place, n: nat)
    requires TreeAt(trees, oid, lap) == Some(oid)
    ensures TreeAt(trees, oid, Laps(lap, n)) == Some(oid)
  {
    if n > 0 {
      LapsReturn(trees, oid, lap, n - 1);
      Below(trees, oid, Laps(lap, n - 1), oid, lap);
    }
  }

  lemma {:induction false} LapsApart(trees: map<Oid, seq<TreeEntry>>, roots: seq<Oid>, k: nat, place: Place, oid: Oid,
                                     lap: Place, n: nat) returns (s: set<Occurrence>)
    requires k < |roots| && TreeAt(trees, roots[k], place) == Some(oid) && TreeAt(trees, oid, lap) == Some(oid) && lap != []
    ensures |s| == n && forall o | o in s ::
              o.0 == k && EntryAt(trees, roots[k], o.1).Some? && |o.1| <= |place + Laps(lap, n)|
  {
    if n == 0 {
      s := {};
    } else {
      var before := LapsApart(trees, roots, k, place, oid, lap, n - 1);
      LapsReturn(trees, oid, lap, n);
      Below(trees, roots[k], place, oid, Laps(lap, n));
      s := before + {(k, place + Laps(lap, n))};
    }
  }

  /** A tree that contains itself, below any root, is refused under every budget. */
  lemma CyclicNeverAllowed(rules: Rules, repo: Repository, roots: seq<Oid>, budget: nat, k: nat, place: Place, lap: Place)
    requires k < |roots| && lap != [] && TreeAt(repo.trees, roots[k], place).Some?
    requires TreeAt(repo.trees, roots[k], place + lap) == TreeAt(repo.trees, roots[k], place)
    ensures !Allowed(rules, repo, roots, budget)
  {
    var oid := TreeAt(repo.trees, roots[k], place).value;
    Below(repo.trees, roots[k], place, oid, lap);
    var s := LapsApart(repo.trees, roots, k, place, oid, lap, budget + 1);
    assert forall o | o in s :: Occurs(repo, roots, o);
  }
}
