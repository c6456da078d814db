/** On the flat listing Git prints for one tree, the chunk-fed parser and the explicit-stack walk
    reach the same verdict. */
module ListingAgreement {
  import opened Common
  import opened TreePolicy
  import opened AcceptListing

  // ----- what a listing remembers: its paths, in order

  /** Running the counting and folding tests over a list of paths. */
  function RememberAll(policy: Policy, paths: seq<Text>): Option<Seen> {
    if paths == [] then Some(NOTHING)
    else match RememberAll(policy, paths[..|paths| - 1])
      case None => None
      case Some(seen) => Remember(policy, seen, paths[|paths| - 1])
  }

  ghost function ChildrenOf(paths: seq<Text>, parent: Text): set<nat> {
    set i: nat | i < |paths| && ParentOf(paths[i]) == parent
  }

  ghost predicate FoldConsistent(policy: Policy, paths: seq<Text>) {
    forall i, j | 0 <= i < |paths| && 0 <= j < |paths| && policy.rules.fold(paths[i]) == policy.rules.fold(paths[j]) ::
      paths[i] == paths[j]
  }

  ghost predicate SiblingsWithin(policy: Policy, paths: seq<Text>) {
    forall parent :: |ChildrenOf(paths, parent)| <= policy.maximumSiblings
  }

  ghost predicate SeenExactly(policy: Policy, paths: seq<Text>, seen: Seen) {
    && seen.count == |paths|
    && (forall parent :: Siblings(seen, parent) == |ChildrenOf(paths, parent)|)
    && (forall i | 0 <= i < |paths| :: policy.rules.fold(paths[i]) in seen.comparisons
          && seen.comparisons[policy.rules.fold(paths[i])] == paths[i])
    && (forall c | c in seen.comparisons ::
          exists i :: 0 <= i < |paths| && policy.rules.fold(paths[i]) == c && paths[i] == seen.comparisons[c])
  }

  lemma ChildrenGrow(paths: seq<Text>, path: Text, parent: Text)
    ensures |ChildrenOf(paths + [path], parent)|
            == |ChildrenOf(paths, parent)| + if ParentOf(path) == parent then 1 else 0
  {
    var before, after := ChildrenOf(paths, parent), ChildrenOf(paths + [path], parent);
    assert |paths| !in before;
    assert after == if ParentOf(path) == parent then before + {|paths|} else before;
  }

  /** The tests pass on every prefix exactly when the whole list is small enough, has no crowded
      parent and folds consistently. */
  lemma {:induction false} RememberAllExact(policy: Policy, paths: seq<Text>)
    ensures RememberAll(policy, paths).Some? <==>
            |paths| <= MAX_ENTRIES && SiblingsWithin(policy, paths) && FoldConsistent(policy, paths)
    ensures RememberAll(policy, paths).Some? ==> SeenExactly(policy, paths, RememberAll(policy, paths).value)
    decreases |paths|
  {
    if paths == [] {
      forall parent ensures ChildrenOf(paths, parent) == {} {}
    } else {
      var front, path := paths[..|paths| - 1], paths[|paths| - 1];
      RememberAllExact(policy, front);
      assert paths == front + [path];
      RememberStep(policy, front, path);
    }
  }

  lemma RememberStep(policy: Policy, front: seq<Text>, path: Text)
    requires RememberAll(policy, front).Some? <==>
             |front| <= MAX_ENTRIES && SiblingsWithin(policy, front) && FoldConsistent(policy, front)
    requires RememberAll(policy, front).Some? ==> SeenExactly(policy, front, RememberAll(policy, front).value)
    ensures var paths := front + [path];
            && (RememberAll(policy, paths).Some? <==>
                |paths| <= MAX_ENTRIES && SiblingsWithin(policy, paths) && FoldConsistent(policy, paths))
            && (RememberAll(policy, paths).Some? ==> SeenExactly(policy, paths, RememberAll(policy, paths).value))
  {
    var paths := front + [path];
    assert paths[..|paths| - 1] == front;
    forall parent
      ensures |ChildrenOf(paths, parent)| == |ChildrenOf(front, parent)| + if ParentOf(path) == parent then 1 else 0
    {
      ChildrenGrow(front, path, parent);
    }
    if RememberAll(policy, front).Some? {
      StepFromSeen(policy, front, path, RememberAll(policy, front).value);
    } else {
      assert SiblingsWithin(policy, paths) ==> SiblingsWithin(policy, front);
      assert FoldConsistent(policy, paths) ==> FoldConsistent(policy, front) by {
        if FoldConsistent(policy, paths) {
          forall i, j | 0 <= i < |front| && 0 <= j < |front|
                        && policy.rules.fold(front[i]) == policy.rules.fold(front[j])
            ensures front[i] == front[j]
          {
            assert paths[i] == front[i] && paths[j] == front[j];
          }
        }
      }
    }
  }

  lemma StepFromSeen(policy: Policy, front: seq<Text>, path: Text, seen: Seen)
    requires SeenExactly(policy, front, seen)
    requires |front| <= MAX_ENTRIES && SiblingsWithin(policy, front) && FoldConsistent(policy, front)
    requires forall parent :: |ChildrenOf(front + [path], parent)|
                              == |ChildrenOf(front, parent)| + if ParentOf(path) == parent then 1 else 0
    ensures var paths := front + [path];
            && (Remember(policy, seen, path).Some? <==>
                |paths| <= MAX_ENTRIES && SiblingsWithin(policy, paths) && FoldConsistent(policy, paths))
            && (Remember(policy, seen, path).Some? ==> SeenExactly(policy, paths, Remember(policy, seen, path).value))
  {
    hide ChildrenOf, ParentOf;
    var paths, parent := front + [path], ParentOf(path);
    CrowdStep(policy, front, path);
    FoldStep(policy, front, path, seen);
    hide SiblingsWithin, FoldConsistent;
  }

  /** One more path crowds its own parent or none. */
  lemma CrowdStep(policy: Policy, front: seq<Text>, path: Text)
    requires SiblingsWithin(policy, front)
    requires forall parent :: |ChildrenOf(front + [path], parent)|
                              == |ChildrenOf(front, parent)| + if ParentOf(path) == parent then 1 else 0
    ensures SiblingsWithin(policy, front + [path])
            <==> |ChildrenOf(front, ParentOf(path))| + 1 <= policy.maximumSiblings
  {
    hide ChildrenOf, ParentOf;
    assert |ChildrenOf(front + [path], ParentOf(path))| == |ChildrenOf(front, ParentOf(path))| + 1;
  }

  /** The comparison map decides whether one more path folds consistently, and stays exact. */
  lemma FoldStep(policy: Policy, front: seq<Text>, path: Text, seen: Seen)
    requires FoldConsistent(policy, front)
    requires forall i | 0 <= i < |front| :: policy.rules.fold(front[i]) in seen.comparisons
               && seen.comparisons[policy.rules.fold(front[i])] == front[i]
    requires forall c | c in seen.comparisons ::
               exists i :: 0 <= i < |front| && policy.rules.fold(front[i]) == c && front[i] == seen.comparisons[c]
    ensures var paths, folded := front + [path], policy.rules.fold(path);
            var next := seen.comparisons[folded := path];
            && (FoldConsistent(policy, paths) <==> (folded in seen.comparisons ==> seen.comparisons[folded] == path))
            && (FoldConsistent(policy, paths) ==>
                  && (forall i | 0 <= i < |paths| :: policy.rules.fold(paths[i]) in next
                        && next[policy.rules.fold(paths[i])] == paths[i])
                  && (forall c | c in next ::
                        exists i :: 0 <= i < |paths| && policy.rules.fold(paths[i]) == c && paths[i] == next[c]))
  {
    var paths, folded, n := front + [path], policy.rules.fold(path), |front|;
    var next := seen.comparisons[folded := path];
    assert paths[n] == path && forall i | 0 <= i < n :: paths[i] == front[i];
    if folded in seen.comparisons {
      var i :| 0 <= i < n && policy.rules.fold(front[i]) == folded && front[i] == seen.comparisons[folded];
      assert paths[i] == seen.comparisons[folded];
    }
    forall c | c in next
      ensures exists i :: 0 <= i < |paths| && policy.rules.fold(paths[i]) == c && paths[i] == next[c]
    {
      if c == folded {
        assert paths[n] == next[c];
      } else {
        var i :| 0 <= i < n && policy.rules.fold(front[i]) == c && front[i] == seen.comparisons[c];
        assert paths[i] == next[c];
      }
    }
  }

  // ----- what Git prints: every entry below the root in depth-first order

  datatype Line = Line(place: Place, names: seq<Text>, entry: TreeEntry)

  /** An object store without cycles, in which every subtree is present. */
  ghost predicate Acyclic(trees: map<Oid, seq<TreeEntry>>, rank: Oid -> nat) {
    forall oid, i | oid in trees && 0 <= i < |trees[oid]| && IsTreeMode(trees[oid][i].mode) ::
      trees[oid][i].oid in trees && rank(trees[oid][i].oid) < rank(oid)
  }

  ghost function Lines(trees: map<Oid, seq<TreeEntry>>, rank: Oid -> nat, oid: Oid, place: Place, names: seq<Text>,
                       i: nat): seq<Line>
    requires Acyclic(trees, rank) && oid in trees && i <= |trees[oid]|
    decreases rank(oid), |trees[oid]| - i
  {
    if i == |trees[oid]| then []
    else
      var entry := trees[oid][i];
      [Line(place + [i], names + [entry.name], entry)]
      + (if IsTreeMode(entry.mode) then Lines(trees, rank, entry.oid, place + [i], names + [entry.name], 0) else [])
      + Lines(trees, rank, oid, place, names, i + 1)
  }

  /** Every line is an entry of the expansion, below the tree listed. */
  lemma {:induction false} LinesSound(trees: map<Oid, seq<TreeEntry>>, rank: Oid -> nat, root: Oid, oid: Oid,
                                      place: Place, names: seq<Text>, i: nat)
    requires Acyclic(trees, rank) && oid in trees && i <= |trees[oid]|
    requires TreeAt(trees, root, place) == Some(oid) && NamesAt(trees, root, place) == names
    ensures forall line | line in Lines(trees, rank, oid, place, names, i) ::
              && EntryAt(trees, root, line.place) == Some(line.entry) && NamesAt(trees, root, line.place) == line.names
              && |line.place| > |place| && line.place[..|place|] == place && i <= line.place[|place|] < |trees[oid]|
    decreases rank(oid), |trees[oid]| - i
  {
    if i < |trees[oid]| {
      var entry := trees[oid][i];
      StepDown(trees, root, place, i);
      LinesSound(trees, rank, root, oid, place, names, i + 1);
      if IsTreeMode(entry.mode) {
        LinesSound(trees, rank, root, entry.oid, place + [i], names + [entry.name], 0);
        forall line | line in Lines(trees, rank, entry.oid, place + [i], names + [entry.name], 0)
          ensures line.place[..|place|] == place && line.place[|place|] == i
        {
          assert line.place[..|place| + 1] == place + [i];
          assert line.place[..|place|] == (place + [i])[..|place|];
          assert line.place[|place|] == (place + [i])[|place|];
        }
      }
    }
  }

  lemma {:induction false} PrefixTree(trees: map<Oid, seq<TreeEntry>>, root: Oid, q: Place, n: nat)
    requires n < |q| && EntryAt(trees, root, q).Some?
    ensures TreeAt(trees, root, q[..n]).Some?
    decreases |q|
  {
    var parent := q[..|q| - 1];
    if n < |parent| {
      assert parent[..n] == q[..n];
      PrefixTree(trees, root, parent, n);
    } else {
      assert q[..n] == parent;
    }
  }

  /** Every entry of the expansion below the tree listed is on some line. */
  lemma {:induction false} LinesComplete(trees: map<Oid, seq<TreeEntry>>, rank: Oid -> nat, root: Oid, oid: Oid,
                                         place: Place, names: seq<Text>, i: nat, q: Place)
    requires Acyclic(trees, rank) && oid in trees && i <= |trees[oid]|
    requires TreeAt(trees, root, place) == Some(oid) && NamesAt(trees, root, place) == names
    requires EntryAt(trees, root, q).Some? && |q| > |place| && q[..|place|] == place && i <= q[|place|]
    ensures exists line :: line in Lines(trees, rank, oid, place, names, i) && line.place == q
    decreases rank(oid), |trees[oid]| - i
  {
    var j, here := q[|place|], q[..|place| + 1];
    assert here == place + [j];
    assert here[..|place|] == place;
    if here == q {
      assert EntryAt(trees, root, here).Some?;
    } else {
      PrefixTree(trees, root, q, |place| + 1);
      assert TreeAt(trees, root, here).Some?;
    }
    assert j < |trees[oid]|;
    var entry := trees[oid][i];
    StepDown(trees, root, place, i);
    var head := Line(place + [i], names + [entry.name], entry);
    var all := Lines(trees, rank, oid, place, names, i);
    if i < j {
      LinesComplete(trees, rank, root, oid, place, names, i + 1, q);
      var line :| line in Lines(trees, rank, oid, place, names, i + 1) && line.place == q;
      assert line in all;
    } else if here == q {
      assert head in all;
    } else {
      LinesComplete(trees, rank, root, entry.oid, here, names + [entry.name], 0, q);
      var line :| line in Lines(trees, rank, entry.oid, here, names + [entry.name], 0) && line.place == q;
      assert line in all;
    }
  }

  ghost predicate DistinctPlaces(lines: seq<Line>) {
    forall a, b | 0 <= a < b < |lines| :: lines[a].place != lines[b].place
  }

  lemma DistinctConcat(a: seq<Line>, b: seq<Line>)
    requires DistinctPlaces(a) && DistinctPlaces(b)
    requires forall x, y | x in a && y in b :: x.place != y.place
    ensures DistinctPlaces(a + b)
  {}

  /** No entry is listed twice. */
  lemma {:induction false} LinesDistinct(trees: map<Oid, seq<TreeEntry>>, rank: Oid -> nat, root: Oid, oid: Oid,
                                         place: Place, names: seq<Text>, i: nat)
    requires Acyclic(trees, rank) && oid in trees && i <= |trees[oid]|
    requires TreeAt(trees, root, place) == Some(oid) && NamesAt(trees, root, place) == names
    ensures DistinctPlaces(Lines(trees, rank, oid, place, names, i))
    decreases rank(oid), |trees[oid]| - i
  {
    if i < |trees[oid]| {
      var entry := trees[oid][i];
      StepDown(trees, root, place, i);
      var here, below := place + [i], names + [entry.name];
      var head := [Line(here, below, entry)];
      var sub := if IsTreeMode(entry.mode) then Lines(trees, rank, entry.oid, here, below, 0) else [];
      var rest := Lines(trees, rank, oid, place, names, i + 1);
      LinesUnfold(trees, rank, oid, place, names, i);
      hide EntryAt, NamesAt, TreeAt, DistinctPlaces, Lines;
      LinesDistinct(trees, rank, root, oid, place, names, i + 1);
      LinesSound(trees, rank, root, oid, place, names, i + 1);
      if IsTreeMode(entry.mode) {
        LinesDistinct(trees, rank, root, entry.oid, here, below, 0);
        LinesSound(trees, rank, root, entry.oid, here, below, 0);
        assert |here| == |place| + 1;
      } else {
        assert DistinctPlaces(sub) by { NoLines(); }
      }
      DistinctPieces(place, i, head[0], sub, rest);
    }
  }

  lemma NoLines()
    ensures DistinctPlaces([])
  {}

  lemma LinesUnfold(trees: map<Oid, seq<TreeEntry>>, rank: Oid -> nat, oid: Oid, place: Place, names: seq<Text>, i: nat)
    requires Acyclic(trees, rank) && oid in trees && i < |trees[oid]|
    ensures var entry := trees[oid][i]; var here, below := place + [i], names + [entry.name];
            Lines(trees, rank, oid, place, names, i)
            == [Line(here, below, entry)]
               + (if IsTreeMode(entry.mode) then Lines(trees, rank, entry.oid, here, below, 0) else [])
               + Lines(trees, rank, oid, place, names, i + 1)
  {}

  lemma DistinctPieces(place: Place, i: nat, head: Line, sub: seq<Line>, rest: seq<Line>)
    requires DistinctPlaces(sub) && DistinctPlaces(rest) && head.place == place + [i]
    requires forall x | x in sub :: |x.place| > |place| + 1 && x.place[..|place| + 1] == place + [i]
    requires forall y | y in rest :: |y.place| > |place| && y.place[|place|] >= i + 1
    ensures DistinctPlaces([head] + sub + rest)
  {
    forall x, y | x in [head] + sub && y in rest
      ensures x.place != y.place
    {
      assert x.place[..|place| + 1][|place|] == i;
    }
    DistinctConcat([head], sub);
    DistinctConcat([head] + sub, rest);
  }

  // ----- a sound object store, as `fsck` leaves it

  ghost predicate SoundTree(policy: Policy, repo: Repository, entries: seq<TreeEntry>) {
    && (forall i | 0 <= i < |entries| ::
          && SLASH !in entries[i].name
          && ValidOid(policy, entries[i].oid)
          && MetadataSafe(entries[i].mode)
          && (IsTreeMode(entries[i].mode) ==> entries[i].oid in repo.inventory && repo.inventory[entries[i].oid] == TreeObject)
          && (IsBlobMode(entries[i].mode) ==> entries[i].oid in repo.inventory && repo.inventory[entries[i].oid] == BlobObject))
    && (forall i, j | 0 <= i < j < |entries| :: entries[i].name != entries[j].name)
  }

  /** Seven-bit text without tabs or NULs. */
  predicate Plain(s: string) {
    forall i | 0 <= i < |s| :: s[i] as int < 128 && s[i] as int != TAB && s[i] as int != NUL
  }

  predicate MetadataSafe(s: string) { Plain(s) && SPACE_CHAR !in s }

  ghost predicate SoundStore(policy: Policy, repo: Repository, rank: Oid -> nat) {
    && Acyclic(repo.trees, rank)
    && forall oid | oid in repo.trees :: SoundTree(policy, repo, repo.trees[oid])
  }

  lemma EntryOfSoundTree(policy: Policy, repo: Repository, rank: Oid -> nat, root: Oid, p: Place)
    requires SoundStore(policy, repo, rank) && root in repo.trees && EntryAt(repo.trees, root, p).Some?
    ensures p != [] && TreeAt(repo.trees, root, p[..|p| - 1]).Some?
    ensures var oid, i := TreeAt(repo.trees, root, p[..|p| - 1]).value, p[|p| - 1];
            && oid in repo.trees && i < |repo.trees[oid]| && EntryAt(repo.trees, root, p).value == repo.trees[oid][i]
            && SoundTree(policy, repo, repo.trees[oid])
  {}

  /** The j-th name on the way to an entry is the name of the entry j steps down. */
  lemma {:induction false} NamesAre(trees: map<Oid, seq<TreeEntry>>, root: Oid, p: Place, j: nat)
    requires EntryAt(trees, root, p).Some? && j < |p|
    ensures |NamesAt(trees, root, p)| == |p|
    ensures EntryAt(trees, root, p[..j + 1]).Some?
    ensures NamesAt(trees, root, p)[j] == EntryAt(trees, root, p[..j + 1]).value.name
    decreases |p|
  {
    var parent := p[..|p| - 1];
    NamesLength(trees, root, parent);
    if j == |p| - 1 {
      assert p[..j + 1] == p;
    } else {
      assert parent[..j + 1] == p[..j + 1];
      NamesAre(trees, root, parent, j);
    }
  }

  lemma {:induction false} SoundNames(policy: Policy, repo: Repository, rank: Oid -> nat, root: Oid, p: Place)
    requires SoundStore(policy, repo, rank) && root in repo.trees
    requires p == [] || EntryAt(repo.trees, root, p).Some?
    ensures var names := NamesAt(repo.trees, root, p); forall j | 0 <= j < |names| :: SLASH !in names[j]
  {
    var names := NamesAt(repo.trees, root, p);
    forall j | 0 <= j < |names|
      ensures SLASH !in names[j]
    {
      NamesLength'(repo.trees, root, p);
      NamesAre(repo.trees, root, p, j);
      EntryOfSoundTree(policy, repo, rank, root, p[..j + 1]);
    }
  }

  lemma NamesLength'(trees: map<Oid, seq<TreeEntry>>, root: Oid, p: Place)
    requires p == [] || EntryAt(trees, root, p).Some?
    ensures |NamesAt(trees, root, p)| == |p|
  {
    if p != [] {
      NamesAre(trees, root, p, 0);
    }
  }

  /** Names lead to one place only. */
  lemma {:induction false} NamesInjective(policy: Policy, repo: Repository, rank: Oid -> nat, root: Oid, p: Place, q: Place)
    requires SoundStore(policy, repo, rank) && root in repo.trees
    requires p == [] || EntryAt(repo.trees, root, p).Some?
    requires q == [] || EntryAt(repo.trees, root, q).Some?
    requires NamesAt(repo.trees, root, p) == NamesAt(repo.trees, root, q)
    ensures p == q
    decreases |p|
  {
    NamesLength'(repo.trees, root, p);
    NamesLength'(repo.trees, root, q);
    if p != [] {
      var pp, qq := p[..|p| - 1], q[..|q| - 1];
      EntryOfSoundTree(policy, repo, rank, root, p);
      EntryOfSoundTree(policy, repo, rank, root, q);
      var names := NamesAt(repo.trees, root, p);
      assert NamesAt(repo.trees, root, pp) == names[..|names| - 1] == NamesAt(repo.trees, root, qq);
      NamesInjective(policy, repo, rank, root, pp, qq);
      assert p == pp + [p[|p| - 1]] && q == qq + [q[|q| - 1]];
    }
  }

  lemma JoinInjective(a: seq<Text>, b: seq<Text>)
    requires forall i | 0 <= i < |a| :: SLASH !in a[i] && a[i] != []
    requires forall i | 0 <= i < |b| :: SLASH !in b[i] && b[i] != []
    requires Join(a) == Join(b)
    ensures a == b
  {
    if a != [] && b != [] {
      SplitJoined(a);
      SplitJoined(b);
    } else if a != [] {
      JoinNonempty(a);
    } else if b != [] {
      JoinNonempty(b);
    }
  }

  lemma {:induction false} BijectionCardinality(s: set<nat>, index: map<nat, nat>, line: seq<nat>)
    requires s <= index.Keys
    requires forall k | k in s :: index[k] < |line| && line[index[k]] == k
    requires forall i | 0 <= i < |line| :: line[i] in s && index[line[i]] == i
    ensures |s| == |line|
    decreases |line|
  {
    if line == [] {
      assert s == {};
    } else {
      var n := |line| - 1;
      BijectionCardinality(s - {line[n]}, index, line[..n]);
    }
  }

  // ----- the two verdicts

  ghost function Listing(repo: Repository, rank: Oid -> nat, root: Oid): seq<Line>
    requires Acyclic(repo.trees, rank) && root in repo.trees
  {
    Lines(repo.trees, rank, root, [], [], 0)
  }

  function PathsOf(lines: seq<Line>): (paths: seq<Text>)
    ensures |paths| == |lines|
  {
    seq(|lines|, i requires 0 <= i < |lines| => Join(lines[i].names))
  }

  ghost predicate LineAllowed(policy: Policy, line: Line) {
    && (IsTreeMode(line.entry.mode) || IsBlobMode(line.entry.mode))
    && Join(line.names) != [] && |Join(line.names)| <= MAX_PATH_UTF16
    && forall i | 0 <= i < |line.names| :: ValidateSegment(policy.rules, line.names[i]).Pass?
  }

  ghost predicate ListingAllowed(policy: Policy, lines: seq<Line>) {
    (forall k | 0 <= k < |lines| :: LineAllowed(policy, lines[k])) && RememberAll(policy, PathsOf(lines)).Some?
  }

  /** Every tree that the expansion of the root reaches is small enough. */
  ghost predicate ReachedTreesWithin(repo: Repository, root: Oid, limit: nat) {
    forall p: Place | TreeAt(repo.trees, root, p).Some? && TreeAt(repo.trees, root, p).value in repo.trees ::
      |repo.trees[TreeAt(repo.trees, root, p).value]| <= limit
  }

  lemma TreesPresent(repo: Repository, rank: Oid -> nat, root: Oid, p: Place)
    requires Acyclic(repo.trees, rank) && root in repo.trees && TreeAt(repo.trees, root, p).Some?
    ensures TreeAt(repo.trees, root, p).value in repo.trees
  {}

  ghost predicate FaithfulLine(repo: Repository, root: Oid, line: Line) {
    && line.place != [] && EntryAt(repo.trees, root, line.place) == Some(line.entry)
    && NamesAt(repo.trees, root, line.place) == line.names
  }

  ghost predicate Faithful(repo: Repository, root: Oid, lines: seq<Line>) {
    && DistinctPlaces(lines)
    && (forall k | 0 <= k < |lines| :: FaithfulLine(repo, root, lines[k]))
    && (forall p | EntryAt(repo.trees, root, p).Some? :: exists k :: 0 <= k < |lines| && lines[k].place == p)
  }

  lemma ListingFaithful(repo: Repository, rank: Oid -> nat, root: Oid)
    requires Acyclic(repo.trees, rank) && root in repo.trees
    ensures var lines := Listing(repo, rank, root);
            Faithful(repo, root, lines)
  {
    LinesDistinct(repo.trees, rank, root, root, [], [], 0);
    LinesSound(repo.trees, rank, root, root, [], [], 0);
    var lines := Listing(repo, rank, root);
    forall p | EntryAt(repo.trees, root, p).Some?
      ensures exists k :: 0 <= k < |lines| && lines[k].place == p
    {
      LinesComplete(repo.trees, rank, root, root, [], [], 0, p);
    }
  }

  lemma EntryFromLine(policy: Policy, repo: Repository, rank: Oid -> nat, root: Oid, line: Line)
    requires SoundStore(policy, repo, rank) && root in repo.trees
    requires EntryAt(repo.trees, root, line.place) == Some(line.entry)
    requires NamesAt(repo.trees, root, line.place) == line.names
    requires LineAllowed(policy, line)
    ensures EntryAllowed(policy.rules, repo, root, line.place)
  {
    var p := line.place;
    NamesAre(repo.trees, root, p, |p| - 1);
    assert p[..|p|] == p;
    EntryOfSoundTree(policy, repo, rank, root, p);
  }

  lemma LineFromEntries(policy: Policy, repo: Repository, rank: Oid -> nat, root: Oid, line: Line)
    requires EntryAt(repo.trees, root, line.place) == Some(line.entry)
    requires NamesAt(repo.trees, root, line.place) == line.names
    requires forall p | EntryAt(repo.trees, root, p).Some? :: EntryAllowed(policy.rules, repo, root, p)
    ensures LineAllowed(policy, line)
  {
    var p := line.place;
    assert EntryAllowed(policy.rules, repo, root, p);
    NamesLength'(repo.trees, root, p);
    forall i | 0 <= i < |line.names|
      ensures ValidateSegment(policy.rules, line.names[i]).Pass?
    {
      NamesAre(repo.trees, root, p, i);
      assert EntryAllowed(policy.rules, repo, root, p[..i + 1]);
    }
    JoinNonempty(line.names);
  }

  /** Line by line, the listing is allowed exactly when every entry of the expansion is. */
  lemma LinesAllowedExact(policy: Policy, repo: Repository, rank: Oid -> nat, root: Oid)
    requires SoundStore(policy, repo, rank) && root in repo.trees
    ensures (forall k | 0 <= k < |Listing(repo, rank, root)| :: LineAllowed(policy, Listing(repo, rank, root)[k]))
            <==> (forall p | EntryAt(repo.trees, root, p).Some? :: EntryAllowed(policy.rules, repo, root, p))
  {
    hide LineAllowed, EntryAllowed, SoundTree;
    var lines := Listing(repo, rank, root);
    ListingFaithful(repo, rank, root);
    hide EntryAt, NamesAt, DistinctPlaces, Listing;
    assert forall k | 0 <= k < |lines| :: FaithfulLine(repo, root, lines[k]);
    if forall k | 0 <= k < |lines| :: LineAllowed(policy, lines[k]) {
      forall p | EntryAt(repo.trees, root, p).Some?
        ensures EntryAllowed(policy.rules, repo, root, p)
      {
        var k :| 0 <= k < |lines| && lines[k].place == p;
        EntryFromLine(policy, repo, rank, root, lines[k]);
      }
    }
    if forall p | EntryAt(repo.trees, root, p).Some? :: EntryAllowed(policy.rules, repo, root, p) {
      forall k | 0 <= k < |lines|
        ensures LineAllowed(policy, lines[k])
      {
        LineFromEntries(policy, repo, rank, root, lines[k]);
      }
    }
  }

  ghost function OccurrencesOf(lines: seq<Line>): set<Occurrence> {
    set k | 0 <= k < |lines| :: (0, lines[k].place)
  }

  /** The listing has one line per occurrence, so its length is the size of the expansion. */
  lemma BudgetExact(repo: Repository, rank: Oid -> nat, root: Oid, budget: nat)
    requires Acyclic(repo.trees, rank) && root in repo.trees
    ensures WithinBudget(repo, [root], budget) <==> |Listing(repo, rank, root)| <= budget
  {
    var lines := Listing(repo, rank, root);
    ListingFaithful(repo, rank, root);
    var all := OccurrencesOf(lines);
    PlacesCardinality(lines);
    assert forall o | o in all :: Occurs(repo, [root], o);
    forall s: set<Occurrence> | forall o | o in s :: Occurs(repo, [root], o)
      ensures |s| <= |lines|
    {
      forall o | o in s ensures o in all {
        assert Occurs(repo, [root], o);
        var k :| 0 <= k < |lines| && lines[k].place == o.1;
        assert o == (0, lines[k].place);
      }
      SubsetCardinality(s, all);
    }
  }

  lemma {:induction false} PlacesCardinality(lines: seq<Line>)
    requires DistinctPlaces(lines)
    ensures |OccurrencesOf(lines)| == |lines|
    decreases |lines|
  {
    var all := OccurrencesOf(lines);
    if lines == [] {
      assert all == {};
    } else {
      var n := |lines| - 1;
      var front := lines[..n];
      var fewer := OccurrencesOf(front);
      PlacesCardinality(front);
      assert all == fewer + {(0, lines[n].place)};
      assert (0, lines[n].place) !in fewer;
    }
  }

  lemma ParentNames(trees: map<Oid, seq<TreeEntry>>, root: Oid, line: Line)
    requires line.place != [] && EntryAt(trees, root, line.place) == Some(line.entry)
    requires NamesAt(trees, root, line.place) == line.names
    ensures var parent := line.place[..|line.place| - 1];
            && line.names != [] && NamesAt(trees, root, parent) == line.names[..|line.names| - 1]
            && (parent == [] || EntryAt(trees, root, parent).Some?)
  {}

  lemma NonemptyAllowed(policy: Policy, line: Line)
    requires LineAllowed(policy, line)
    ensures forall i | 0 <= i < |line.names| :: line.names[i] != []
  {
    forall i | 0 <= i < |line.names| ensures line.names[i] != [] {
      assert ValidateSegment(policy.rules, line.names[i]).Pass?;
    }
  }

  lemma TreeIsEntry(trees: map<Oid, seq<TreeEntry>>, root: Oid, p: Place)
    requires TreeAt(trees, root, p).Some?
    ensures p == [] || EntryAt(trees, root, p).Some?
  {}

  /** Paths tell lines of different parents apart. */
  lemma ParentExact(policy: Policy, repo: Repository, rank: Oid -> nat, root: Oid, line: Line, p: Place)
    requires SoundStore(policy, repo, rank) && root in repo.trees
    requires FaithfulLine(repo, root, line) && LineAllowed(policy, line)
    requires TreeAt(repo.trees, root, p).Some?
    requires forall i | 0 <= i < |NamesAt(repo.trees, root, p)| :: NamesAt(repo.trees, root, p)[i] != []
    ensures ParentOf(Join(line.names)) == Join(NamesAt(repo.trees, root, p)) <==> line.place[..|line.place| - 1] == p
  {
    hide SoundTree, Acyclic;
    var parent := line.place[..|line.place| - 1];
    var names := NamesAt(repo.trees, root, p);
    ParentNames(repo.trees, root, line);
    hide TreeAt, EntryAt, NamesAt;
    TreeIsEntry(repo.trees, root, p);
    SoundNames(policy, repo, rank, root, line.place);
    SplitJoined(line.names);
    SoundNames(policy, repo, rank, root, p);
    NonemptyAllowed(policy, line);
    hide Join, LineAllowed;
    if Join(line.names[..|line.names| - 1]) == Join(names) {
      JoinInjective(line.names[..|line.names| - 1], names);
      NamesInjective(policy, repo, rank, root, parent, p);
    }
  }

  lemma LineOf(lines: seq<Line>, p: Place) returns (k: nat)
    requires exists k :: 0 <= k < |lines| && lines[k].place == p
    ensures k < |lines| && lines[k].place == p
  {
    k :| 0 <= k < |lines| && lines[k].place == p;
  }

  /** The index of the line of each entry of one tree. */
  lemma ChildLines(repo: Repository, root: Oid, lines: seq<Line>, p: Place) returns (line: seq<nat>)
    requires Faithful(repo, root, lines)
    requires TreeAt(repo.trees, root, p).Some? && TreeAt(repo.trees, root, p).value in repo.trees
    ensures |line| == |repo.trees[TreeAt(repo.trees, root, p).value]|
    ensures forall j | 0 <= j < |line| :: line[j] < |lines| && lines[line[j]].place == p + [j]
  {
    line := [];
    var n := |repo.trees[TreeAt(repo.trees, root, p).value]|;
    for i := 0 to n
      invariant |line| == i
      invariant forall j | 0 <= j < i :: line[j] < |lines| && lines[line[j]].place == p + [j]
    {
      StepDown(repo.trees, root, p, i);
      var k := LineOf(lines, p + [i]);
      line := line + [k];
    }
  }

  lemma ChildPlace(repo: Repository, root: Oid, line: Line, p: Place)
    requires FaithfulLine(repo, root, line) && line.place[..|line.place| - 1] == p
    requires TreeAt(repo.trees, root, p).Some? && TreeAt(repo.trees, root, p).value in repo.trees
    ensures |line.place| == |p| + 1 && line.place == p + [line.place[|p|]]
    ensures line.place[|p|] < |repo.trees[TreeAt(repo.trees, root, p).value]|
  {}

  /** The lines of one tree are as many as its entries. */
  lemma ChildrenExact(policy: Policy, repo: Repository, rank: Oid -> nat, root: Oid, lines: seq<Line>, p: Place)
    requires SoundStore(policy, repo, rank) && root in repo.trees && Faithful(repo, root, lines)
    requires forall k | 0 <= k < |lines| :: LineAllowed(policy, lines[k])
    requires TreeAt(repo.trees, root, p).Some? && TreeAt(repo.trees, root, p).value in repo.trees
    ensures |ChildrenOf(PathsOf(lines), Join(NamesAt(repo.trees, root, p)))|
            == |repo.trees[TreeAt(repo.trees, root, p).value]|
  {
    hide SoundStore, LineAllowed, EntryAt, TreeAt, NamesAt, Join, ParentOf;
    var paths := PathsOf(lines);
    var children := ChildrenOf(paths, Join(NamesAt(repo.trees, root, p)));
    TreeNamesNonempty(policy, repo, rank, root, lines, p);
    forall k | 0 <= k < |lines|
      ensures k in children <==> lines[k].place[..|lines[k].place| - 1] == p
    {
      assert FaithfulLine(repo, root, lines[k]);
      ParentExact(policy, repo, rank, root, lines[k], p);
    }
    var line := ChildLines(repo, root, lines, p);
    var index: map<nat, nat> := map k | k in children && |p| < |lines[k].place| :: lines[k].place[|p|];
    forall i | 0 <= i < |line|
      ensures line[i] in children && line[i] in index && index[line[i]] == i
    {
      assert (p + [i])[..|p|] == p;
    }
    forall k | k in children
      ensures k in index && index[k] < |line| && line[index[k]] == k
    {
      ChildPlace(repo, root, lines[k], p);
      assert lines[line[index[k]]].place == lines[k].place;
    }
    BijectionCardinality(children, index, line);
  }

  /** With every line allowed, no name on the way to a tree is empty. */
  lemma TreeNamesNonempty(policy: Policy, repo: Repository, rank: Oid -> nat, root: Oid, lines: seq<Line>, p: Place)
    requires forall k | 0 <= k < |lines| :: LineAllowed(policy, lines[k])
    requires forall k | 0 <= k < |lines| :: FaithfulLine(repo, root, lines[k])
    requires forall q | EntryAt(repo.trees, root, q).Some? :: exists k :: 0 <= k < |lines| && lines[k].place == q
    requires TreeAt(repo.trees, root, p).Some?
    ensures forall i | 0 <= i < |NamesAt(repo.trees, root, p)| :: NamesAt(repo.trees, root, p)[i] != []
  {
    if p != [] {
      var k := LineOf(lines, p);
      assert LineAllowed(policy, lines[k]);
    }
  }

  /** No parent path is crowded exactly when no reached tree is too large. */
  lemma SiblingsExact(policy: Policy, repo: Repository, rank: Oid -> nat, root: Oid, lines: seq<Line>)
    requires SoundStore(policy, repo, rank) && root in repo.trees && Faithful(repo, root, lines)
    requires forall k | 0 <= k < |lines| :: LineAllowed(policy, lines[k])
    ensures SiblingsWithin(policy, PathsOf(lines)) <==> ReachedTreesWithin(repo, root, policy.maximumSiblings)
  {
    hide SoundStore, LineAllowed, EntryAt, TreeAt, NamesAt, Join, ParentOf, ChildrenOf;
    var paths := PathsOf(lines);
    forall p: Place | TreeAt(repo.trees, root, p).Some? && TreeAt(repo.trees, root, p).value in repo.trees
      ensures |ChildrenOf(paths, Join(NamesAt(repo.trees, root, p)))|
              == |repo.trees[TreeAt(repo.trees, root, p).value]|
    {
      ChildrenExact(policy, repo, rank, root, lines, p);
    }
    if ReachedTreesWithin(repo, root, policy.maximumSiblings) {
      forall parent
        ensures |ChildrenOf(paths, parent)| <= policy.maximumSiblings
      {
        if ChildrenOf(paths, parent) != {} {
          var p := ParentPlace(policy, repo, rank, root, lines, parent);
          assert |repo.trees[TreeAt(repo.trees, root, p).value]| <= policy.maximumSiblings;
        }
      }
    }
  }

  lemma ParentPlace(policy: Policy, repo: Repository, rank: Oid -> nat, root: Oid, lines: seq<Line>, parent: Text)
    returns (p: Place)
    requires SoundStore(policy, repo, rank) && root in repo.trees && Faithful(repo, root, lines)
    requires forall k | 0 <= k < |lines| :: LineAllowed(policy, lines[k])
    requires ChildrenOf(PathsOf(lines), parent) != {}
    ensures TreeAt(repo.trees, root, p).Some? && TreeAt(repo.trees, root, p).value in repo.trees
    ensures parent == Join(NamesAt(repo.trees, root, p))
  {
    hide SoundTree, Acyclic, LineAllowed, ParentOf;
    var k :| k in ChildrenOf(PathsOf(lines), parent);
    assert FaithfulLine(repo, root, lines[k]);
    p := lines[k].place[..|lines[k].place| - 1];
    TreesPresent'(repo, rank, root, lines[k]);
    hide TreeAt, EntryAt, NamesAt, Join;
    TreeNamesNonempty(policy, repo, rank, root, lines, p);
    ParentExact(policy, repo, rank, root, lines[k], p);
  }

  lemma TreesPresent'(repo: Repository, rank: Oid -> nat, root: Oid, line: Line)
    requires FaithfulLine(repo, root, line)
    ensures var p := line.place[..|line.place| - 1];
            TreeAt(repo.trees, root, p).Some? && TreeAt(repo.trees, root, p).value in repo.trees
  {}

  /** Paths on different lines fold together exactly when entries of the expansion do. */
  lemma FoldsExact(policy: Policy, repo: Repository, root: Oid, lines: seq<Line>)
    requires Faithful(repo, root, lines)
    ensures FoldConsistent(policy, PathsOf(lines)) <==> NoFoldedCollision(policy.rules, repo, root)
  {
    hide EntryAt, NamesAt, Join, DistinctPlaces;
    var paths := PathsOf(lines);
    forall k | 0 <= k < |lines|
      ensures EntryAt(repo.trees, root, lines[k].place).Some? && paths[k] == PathAt(repo.trees, root, lines[k].place)
    {
      assert FaithfulLine(repo, root, lines[k]);
    }
    if FoldConsistent(policy, paths) {
      forall p, q | EntryAt(repo.trees, root, p).Some? && EntryAt(repo.trees, root, q).Some?
                    && policy.rules.fold(PathAt(repo.trees, root, p)) == policy.rules.fold(PathAt(repo.trees, root, q))
        ensures PathAt(repo.trees, root, p) == PathAt(repo.trees, root, q)
      {
        var k := LineOf(lines, p);
        var l := LineOf(lines, q);
        assert paths[k] == PathAt(repo.trees, root, p) && paths[l] == PathAt(repo.trees, root, q);
      }
    }
  }

  /** The listing's verdict is the walk's: allowed, and no tree it reaches too large. */
  lemma ListingVerdict(policy: Policy, repo: Repository, rank: Oid -> nat, root: Oid)
    requires SoundStore(policy, repo, rank) && root in repo.trees
    ensures ListingAllowed(policy, Listing(repo, rank, root)) <==>
            Allowed(policy.rules, repo, [root], MAX_ENTRIES) && ReachedTreesWithin(repo, root, policy.maximumSiblings)
  {
    hide SoundTree, LineAllowed, EntryAllowed, EntryAt, TreeAt, NamesAt, Join, ParentOf, Lines;
    var lines := Listing(repo, rank, root);
    ListingFaithful(repo, rank, root);
    LinesAllowedExact(policy, repo, rank, root);
    BudgetExact(repo, rank, root, MAX_ENTRIES);
    FoldsExact(policy, repo, root, lines);
    RememberAllExact(policy, PathsOf(lines));
    forall p: Place | TreeAt(repo.trees, root, p).Some?
      ensures TreeAt(repo.trees, root, p).value in repo.trees
    {
      TreesPresent(repo, rank, root, p);
    }
    hide WithinBudget, FoldConsistent, NoFoldedCollision, SeenExactly, Faithful;
    if forall k | 0 <= k < |lines| :: LineAllowed(policy, lines[k]) {
      SiblingsExact(policy, repo, rank, root, lines);
      hide SiblingsWithin, ReachedTreesWithin;
      assert RootAllowed(policy.rules, repo, root) <==> NoFoldedCollision(policy.rules, repo, root);
      assert [root][0] == root;
    } else {
      assert !RootAllowed(policy.rules, repo, [root][0]);
    }
  }

  // ----- the bytes Git prints

  /** Git pads a tree's mode and names the object type after the mode. */
  function ListedMode(mode: string): string { if IsTreeMode(mode) then "040000" else mode }

  function ListedType(mode: string): string {
    if IsTreeMode(mode) then "tree" else if mode == "160000" then "commit" else "blob"
  }

  function Metadata(entry: TreeEntry): string {
    ListedMode(entry.mode) + [SPACE_CHAR] + (ListedType(entry.mode) + [SPACE_CHAR] + entry.oid)
  }

  lemma PlainConcat(a: string, b: string)
    requires Plain(a) && Plain(b)
    ensures Plain(a + b)
  {}

  lemma OidPlain(policy: Policy, oid: string)
    requires ValidOid(policy, oid)
    ensures MetadataSafe(oid)
  {
    forall i | 0 <= i < |oid| ensures HexDigit(oid[i]) {}
  }

  lemma MetadataPlain(policy: Policy, entry: TreeEntry)
    requires MetadataSafe(entry.mode) && ValidOid(policy, entry.oid)
    ensures Plain(Metadata(entry)) && Metadata(entry) != []
    ensures Split(Metadata(entry), SPACE_CHAR) == [ListedMode(entry.mode), ListedType(entry.mode), entry.oid]
  {
    var mode, kind := ListedMode(entry.mode), ListedType(entry.mode);
    OidPlain(policy, entry.oid);
    assert MetadataSafe(mode) && MetadataSafe(kind);
    hide ListedMode, ListedType, ValidOid;
    PlainConcat(kind, [SPACE_CHAR]);
    PlainConcat(kind + [SPACE_CHAR], entry.oid);
    PlainConcat(mode, [SPACE_CHAR]);
    PlainConcat(mode + [SPACE_CHAR], kind + [SPACE_CHAR] + entry.oid);
    hide Plain;
    SplitFirst(mode, SPACE_CHAR, kind + [SPACE_CHAR] + entry.oid);
    SplitFirst(kind, SPACE_CHAR, entry.oid);
    SplitOne(entry.oid);
  }

  lemma SplitOne(s: string)
    requires SPACE_CHAR !in s
    ensures Split(s, SPACE_CHAR) == [s]
  {}

  function RecordOf(encode: Text -> Bytes, line: Line): Bytes {
    AsciiBytes(Metadata(line.entry)) + [TAB] + encode(Join(line.names))
  }

  /** The line can be printed: its metadata is plain and its path survives encoding and decoding. */
  ghost predicate Printable(policy: Policy, encode: Text -> Bytes, line: Line) {
    && MetadataSafe(line.entry.mode) && ValidOid(policy, line.entry.oid)
    && line.names != [] && (forall i | 0 <= i < |line.names| :: SLASH !in line.names[i])
    && NUL !in encode(Join(line.names))
    && policy.decode(encode(Join(line.names))) == Some(Join(line.names))
  }

  lemma RecordOfPath(policy: Policy, encode: Text -> Bytes, line: Line)
    requires Printable(policy, encode, line)
    ensures NUL !in RecordOf(encode, line)
    ensures RecordPath(policy, RecordOf(encode, line))
            == if LineAllowed(policy, line) then Some(Join(line.names)) else None
  {
    hide ValidateSegment, Join, ValidOid, IndexOf, Split, Ascii, AsciiBytes, Plain, MetadataSafe;
    MetadataPlain(policy, line.entry);
    RecordShape(Metadata(line.entry), encode(Join(line.names)));
    SplitJoined(line.names);
  }

  /** Plain metadata, a tab and a path: the tab is the first one, and the metadata reads back. */
  lemma RecordShape(meta: string, path: Bytes)
    requires Plain(meta) && NUL !in path
    ensures var record := AsciiBytes(meta) + [TAB] + path;
            && NUL !in record
            && IndexOf(record, TAB, 0) == |meta|
            && Ascii(record[..|meta|]) == meta && record[|meta| + 1..] == path
  {
    var record := AsciiBytes(meta) + [TAB] + path;
    assert forall i | 0 <= i < |meta| :: record[i] == meta[i] as int;
    assert record[|meta|] == TAB;
    assert record[|meta| + 1..] == path;
    assert forall i | |meta| < i < |record| :: record[i] == path[i - |meta| - 1];
  }

  function Stream(encode: Text -> Bytes, lines: seq<Line>): Bytes
  {
    if lines == [] then [] else RecordOf(encode, lines[0]) + [NUL] + Stream(encode, lines[1..])
  }

  function Records(encode: Text -> Bytes, lines: seq<Line>): (records: seq<Bytes>)
    ensures |records| == |lines|
  {
    seq(|lines|, k requires 0 <= k < |lines| => RecordOf(encode, lines[k]))
  }

  lemma {:induction false} StreamRecords(policy: Policy, encode: Text -> Bytes, lines: seq<Line>)
    requires forall k | 0 <= k < |lines| :: Printable(policy, encode, lines[k])
    ensures Completed(Stream(encode, lines)) == Records(encode, lines) && Remainder(Stream(encode, lines)) == []
    decreases |lines|
  {
    hide RecordOf, Printable;
    if lines != [] {
      var record, rest := RecordOf(encode, lines[0]), Stream(encode, lines[1..]);
      RecordOfPath(policy, encode, lines[0]);
      StreamRecords(policy, encode, lines[1..]);
      var stream := record + [NUL] + rest;
      assert stream[|record|] == NUL;
      assert forall i | 0 <= i < |record| :: stream[i] == record[i];
      assert IndexOf(stream, NUL, 0) == |record|;
      Broken(stream);
      assert stream[..|record|] == record && stream[|record| + 1..] == rest;
      assert Records(encode, lines) == [record] + Records(encode, lines[1..]);
    }
  }

  /** What parsing a listing's records should yield. */
  ghost function ListingSeen(policy: Policy, lines: seq<Line>): Option<Seen> {
    if ListingAllowed(policy, lines) then RememberAll(policy, PathsOf(lines)) else None
  }

  lemma {:induction false} ParseLines(policy: Policy, encode: Text -> Bytes, lines: seq<Line>)
    requires AllPrintable(policy, encode, lines)
    ensures ParseAll(policy, NOTHING, Records(encode, lines)) == ListingSeen(policy, lines)
    decreases |lines|
  {
    hide ParseAll, ListingSeen, Records, AllPrintable, RecordOf, Printable;
    if lines == [] {
      ParseNoLines(policy, encode);
    } else {
      var front, last := lines[..|lines| - 1], lines[|lines| - 1];
      LastPrintable(policy, encode, lines);
      ParseLines(policy, encode, front);
      assert lines == front + [last];
      ParseLinesStep(policy, encode, front, last);
    }
  }

  lemma ParseNoLines(policy: Policy, encode: Text -> Bytes)
    ensures ParseAll(policy, NOTHING, Records(encode, [])) == ListingSeen(policy, [])
  {
    hide RecordOf, LineAllowed;
    assert PathsOf([]) == [];
  }

  lemma ParseLinesStep(policy: Policy, encode: Text -> Bytes, front: seq<Line>, last: Line)
    requires Printable(policy, encode, last)
    requires ParseAll(policy, NOTHING, Records(encode, front)) == ListingSeen(policy, front)
    ensures ParseAll(policy, NOTHING, Records(encode, front + [last])) == ListingSeen(policy, front + [last])
  {
    hide RecordOf, LineAllowed, RecordPath, ParseAll, ListingSeen, Remember, Join, Records, Printable;
    RecordOfPath(policy, encode, last);
    RecordsGrow(encode, front, last);
    ParseOneMore(policy, Records(encode, front), RecordOf(encode, last));
    AllowOneMore(policy, front, last);
  }

  ghost predicate AllPrintable(policy: Policy, encode: Text -> Bytes, lines: seq<Line>) {
    forall k | 0 <= k < |lines| :: Printable(policy, encode, lines[k])
  }

  lemma LastPrintable(policy: Policy, encode: Text -> Bytes, lines: seq<Line>)
    requires AllPrintable(policy, encode, lines) && lines != []
    ensures AllPrintable(policy, encode, lines[..|lines| - 1]) && Printable(policy, encode, lines[|lines| - 1])
  {}

  lemma RecordsGrow(encode: Text -> Bytes, front: seq<Line>, last: Line)
    ensures Records(encode, front + [last]) == Records(encode, front) + [RecordOf(encode, last)]
  {
    hide RecordOf;
    var lines := front + [last];
    assert lines[|front|] == last && forall k | 0 <= k < |front| :: lines[k] == front[k];
  }

  lemma ParseOneMore(policy: Policy, records: seq<Bytes>, record: Bytes)
    ensures ParseAll(policy, NOTHING, records + [record])
            == match ParseAll(policy, NOTHING, records)
               case None => None
               case Some(seen) => ParseRecord(policy, seen, record)
  {
    hide ParseRecord;
    var one: seq<Bytes> := [record];
    assert one[1..] == [];
    ParseAppend(policy, NOTHING, records, one);
  }

  lemma AllowOneMore(policy: Policy, front: seq<Line>, last: Line)
    ensures ListingSeen(policy, front + [last])
            == match ListingSeen(policy, front)
               case None => None
               case Some(seen) => if LineAllowed(policy, last) then Remember(policy, seen, Join(last.names)) else None
  {
    hide LineAllowed, Remember, Join;
    var lines := front + [last];
    assert PathsOf(lines) == PathsOf(front) + [Join(last.names)];
    assert PathsOf(lines)[..|front|] == PathsOf(front);
    assert lines[|front|] == last && forall k | 0 <= k < |front| :: lines[k] == front[k];
  }

  /** The bytes of a listing are accepted exactly when its lines are. */
  lemma StreamVerdict(policy: Policy, encode: Text -> Bytes, lines: seq<Line>)
    requires AllPrintable(policy, encode, lines)
    ensures Acceptable(policy, Stream(encode, lines)) <==> ListingAllowed(policy, lines)
  {
    ParseLines(policy, encode, lines);
    StreamRecords(policy, encode, lines);
  }

  /** Every path of the store is valid text that encoding and decoding preserve. */
  ghost predicate Encodes(policy: Policy, encode: Text -> Bytes, repo: Repository, root: Oid) {
    forall p | EntryAt(repo.trees, root, p).Some? ::
      && NUL !in encode(PathAt(repo.trees, root, p))
      && policy.decode(encode(PathAt(repo.trees, root, p))) == Some(PathAt(repo.trees, root, p))
  }

  lemma LinePrintable(policy: Policy, encode: Text -> Bytes, repo: Repository, rank: Oid -> nat, root: Oid, line: Line)
    requires SoundStore(policy, repo, rank) && root in repo.trees && Encodes(policy, encode, repo, root)
    requires FaithfulLine(repo, root, line)
    ensures Printable(policy, encode, line)
  {
    EntryOfSoundTree(policy, repo, rank, root, line.place);
    SoundNames(policy, repo, rank, root, line.place);
    NamesLength'(repo.trees, root, line.place);
  }

  /** Main result: on the listing of one tree of a sound store, however it is cut into chunks, the accept
      parser's verdict is the walk's, with the per-tree limit applied to the trees it reaches. */
  lemma ParserAgreesWithWalk(policy: Policy, encode: Text -> Bytes, repo: Repository, rank: Oid -> nat, root: Oid)
    requires SoundStore(policy, repo, rank) && root in repo.trees && Encodes(policy, encode, repo, root)
    ensures Acceptable(policy, Stream(encode, Listing(repo, rank, root))) <==>
            Allowed(policy.rules, repo, [root], MAX_ENTRIES) && ReachedTreesWithin(repo, root, policy.maximumSiblings)
  {
    hide SoundTree, Encodes, Printable, Allowed, ListingAllowed, Listing, Acceptable, Stream;
    var lines := Listing(repo, rank, root);
    ListingFaithful(repo, rank, root);
    forall k | 0 <= k < |lines|
      ensures Printable(policy, encode, lines[k])
    {
      LinePrintable(policy, encode, repo, rank, root, lines[k]);
    }
    StreamVerdict(policy, encode, lines);
    ListingVerdict(policy, repo, rank, root);
  }
}
