/** The repository side of an accept: the merge commit is a function of the journaled plan, and main moves by one
    compare-and-swap. Hashing, tree checks and ancestry are oracles. */
module AcceptRepository {
  import opened Common
  import B = TreeBatch

  type Oid = string

  type Ref = string

  datatype Commit = Commit(tree: Oid, first: Oid, second: Oid, authorName: string, authorEmail: string,
                           committerName: string, committerEmail: string, message: string)

  /** `preparedAt` is in milliseconds; its ISO text and the number determine each other. */
  datatype Plan = Plan(merge: bool, oidLength: nat, mainRef: Ref, personalRef: Ref, expectedMain: Oid, expectedHead: Oid,
                       preparedAt: int, request: string, relations: seq<Oid>, commit: Commit, result: Option<Oid>)

  const NAME := "Claudian Collab"
  const EMAIL := "collab@claudian.local"

  predicate Plain(s: string) { '\n' !in s }

  /** `assertAcceptPlan`: every object id has the length of the format. An id or an opaque request id has no line
      break. */
  predicate WellFormed(p: Plan) {
    && |p.expectedMain| == p.oidLength && |p.expectedHead| == p.oidLength && |p.commit.tree| == p.oidLength
    && (forall i | 0 <= i < |p.relations| :: |p.relations[i]| == p.oidLength)
    && (p.result.Some? ==> |p.result.value| == p.oidLength)
    && Plain(p.expectedMain) && Plain(p.expectedHead) && Plain(p.commit.tree) && Plain(p.request)
    && p.mainRef != p.personalRef
  }

  // ----- the commit's bytes

  function Seconds(n: int): string { if n < 0 then "-" + B.Decimal(-n) else B.Decimal(n) }

  function JoinLines(lines: seq<string>): string
    requires lines != []
  {
    if |lines| == 1 then lines[0] else lines[0] + "\n" + JoinLines(lines[1..])
  }

  function Person(role: string, name: string, email: string, at: int): string {
    role + " " + name + " <" + email + "> " + Seconds(at / 1000) + " +0000"
  }

  /** `acceptCommitBytes`: nothing when the plan is not the deterministic one. */
  function CommitBytes(p: Plan): Option<string> {
    var c := p.commit;
    if !p.merge || p.preparedAt % 1000 != 0 || c.authorName != NAME || c.authorEmail != EMAIL || c.committerName != NAME
       || c.committerEmail != EMAIL || c.first != p.expectedMain || c.second != p.expectedHead
       || c.message != "Accept request " + p.request + "\n"
    then None
    else Some(JoinLines(["tree " + c.tree, "parent " + c.first, "parent " + c.second,
                         Person("author", c.authorName, c.authorEmail, p.preparedAt),
                         Person("committer", c.committerName, c.committerEmail, p.preparedAt),
                         "", c.message]))
  }

  lemma {:induction false} SplitLines(lines: seq<string>)
    requires lines != [] && forall i | 0 <= i < |lines| :: Plain(lines[i])
    ensures Split(JoinLines(lines), '\n') == lines
  {
    if |lines| == 1 {
      SplitUnfold(lines[0], '\n');
    } else {
      SplitLines(lines[1..]);
      SplitFirst(lines[0], '\n', JoinLines(lines[1..]));
      assert lines[0] + "\n" + JoinLines(lines[1..]) == lines[0] + ['\n'] + JoinLines(lines[1..]);
    }
    hide Split, IndexOf;
  }

  lemma {:induction false} JoinLast(lines: seq<string>, last: string)
    ensures JoinLines(lines + [last + "\n"]) == JoinLines(lines + [last, ""])
  {
    if lines == [] {
      assert [last, ""][1..] == [""];
    } else {
      JoinLast(lines[1..], last);
      assert (lines + [last + "\n"])[1..] == lines[1..] + [last + "\n"];
      assert (lines + [last, ""])[1..] == lines[1..] + [last, ""];
    }
  }

  lemma SecondsPlain(n: int)
    ensures Plain(Seconds(n))
  {}

  lemma SignShown(n: int)
    ensures Seconds(n) != [] && (Seconds(n)[0] == '-' <==> n < 0)
  {
    if n >= 0 {
      assert B.IsDigit(B.Decimal(n)[0]);
    }
  }

  lemma SecondsApart(m: int, n: int)
    requires Seconds(m) == Seconds(n)
    ensures m == n
  {
    SignShown(m);
    SignShown(n);
    if m < 0 {
      assert Seconds(m)[1..] == B.Decimal(-m) && Seconds(n)[1..] == B.Decimal(-n);
      B.ValueOfDecimal(-m);
      B.ValueOfDecimal(-n);
    } else {
      B.ValueOfDecimal(m);
      B.ValueOfDecimal(n);
    }
  }

  function Fields(p: Plan): seq<string> {
    ["tree " + p.commit.tree, "parent " + p.expectedMain, "parent " + p.expectedHead,
     Person("author", NAME, EMAIL, p.preparedAt), Person("committer", NAME, EMAIL, p.preparedAt), "",
     "Accept request " + p.request, ""]
  }

  lemma PersonPlain(role: string, at: int)
    requires Plain(role)
    ensures Plain(Person(role, NAME, EMAIL, at))
  {
    SecondsPlain(at / 1000);
    hide Seconds;
  }

  /** The bytes read back line by line. */
  lemma BytesSplit(p: Plan)
    requires WellFormed(p) && CommitBytes(p).Some?
    ensures Split(CommitBytes(p).value, '\n') == Fields(p)
  {
    hide Split, Person, JoinLines;
    PersonPlain("author", p.preparedAt);
    PersonPlain("committer", p.preparedAt);
    var c := p.commit;
    var front := ["tree " + c.tree, "parent " + c.first, "parent " + c.second,
                  Person("author", NAME, EMAIL, p.preparedAt), Person("committer", NAME, EMAIL, p.preparedAt), ""];
    JoinLast(front, "Accept request " + p.request);
    assert c.message == "Accept request " + p.request + "\n";
    assert CommitBytes(p).value == JoinLines(front + [c.message]) by {
      assert front + [c.message] == ["tree " + c.tree, "parent " + c.first, "parent " + c.second,
                         Person("author", c.authorName, c.authorEmail, p.preparedAt),
                         Person("committer", c.committerName, c.committerEmail, p.preparedAt), "", c.message];
    }
    assert Plain("tree " + c.tree) && Plain("parent " + p.expectedMain) && Plain("parent " + p.expectedHead);
    assert Plain("Accept request " + p.request) && Plain("");
    assert front + ["Accept request " + p.request, ""] == Fields(p);
    SplitLines(Fields(p));
  }

  /** A number of seconds as text: decimal, with a sign when before the epoch. */
  ghost predicate Shows(t: string, milliseconds: int) {
    if milliseconds >= 0 then B.IsDecimal(t) && 1000 * B.Value(t) == milliseconds
    else t != [] && t[0] == '-' && B.IsDecimal(t[1..]) && 1000 * B.Value(t[1..]) == -milliseconds
  }

  lemma SecondsShow(milliseconds: int)
    requires milliseconds % 1000 == 0
    ensures Shows(Seconds(milliseconds / 1000), milliseconds)
  {
    var n := milliseconds / 1000;
    if n < 0 {
      assert Seconds(n)[1..] == B.Decimal(-n);
      B.ValueOfDecimal(-n);
    } else {
      B.ValueOfDecimal(n);
    }
  }

  /** The commit, line by line: the tree, both parents, author and committer at the second the plan was prepared, and
      the message. */
  lemma BytesDated(p: Plan) returns (t: string)
    requires WellFormed(p) && CommitBytes(p).Some?
    ensures Shows(t, p.preparedAt)
    ensures Split(CommitBytes(p).value, '\n')
            == ["tree " + p.commit.tree, "parent " + p.expectedMain, "parent " + p.expectedHead,
                "author" + " " + "Claudian Collab" + " <" + "collab@claudian.local" + "> " + t + " +0000",
                "committer" + " " + "Claudian Collab" + " <" + "collab@claudian.local" + "> " + t + " +0000",
                "", "Accept request " + p.request, ""]
  {
    hide Split, Seconds, WellFormed, JoinLines, CommitBytes;
    BytesSplit(p);
    BytesWhen(p);
    t := Seconds(p.preparedAt / 1000);
    SecondsShow(p.preparedAt);
  }

  /** When there are bytes at all: exactly for the deterministic plan of a merge, at a whole second. */
  lemma BytesWhen(p: Plan)
    ensures CommitBytes(p).Some? <==>
              p.merge && p.preparedAt % 1000 == 0
              && p.commit == Commit(p.commit.tree, p.expectedMain, p.expectedHead, "Claudian Collab", "collab@claudian.local",
                                    "Claudian Collab", "collab@claudian.local", "Accept request " + p.request + "\n")
  {
    hide JoinLines, Person;
  }

  /** Equal bytes mean an equal plan, as far as the commit goes: nothing else enters them and nothing is lost. */
  lemma BytesInjective(p: Plan, q: Plan)
    requires WellFormed(p) && WellFormed(q) && CommitBytes(p).Some? && CommitBytes(q).Some?
    ensures CommitBytes(p) == CommitBytes(q) <==>
              p.commit.tree == q.commit.tree && p.expectedMain == q.expectedMain && p.expectedHead == q.expectedHead
              && p.request == q.request && p.preparedAt == q.preparedAt
  {
    hide Split, JoinLines, Person, WellFormed;
    BytesSplit(p);
    BytesSplit(q);
    if CommitBytes(p) == CommitBytes(q) {
      var f, g := Fields(p), Fields(q);
      Tails("tree ", p.commit.tree, q.commit.tree);
      assert f[0] == g[0] && f[1] == g[1] && f[2] == g[2] && f[3] == g[3] && f[6] == g[6];
      Tails("parent ", p.expectedMain, q.expectedMain);
      Tails("parent ", p.expectedHead, q.expectedHead);
      Tails("Accept request ", p.request, q.request);
      PersonApart(p.preparedAt, q.preparedAt);
    }
  }

  lemma Tails(prefix: string, a: string, b: string)
    ensures prefix + a == prefix + b ==> a == b
  {
    assert (prefix + a)[|prefix|..] == a && (prefix + b)[|prefix|..] == b;
  }

  lemma PersonApart(a: int, b: int)
    requires a % 1000 == 0 && b % 1000 == 0 && Person("author", NAME, EMAIL, a) == Person("author", NAME, EMAIL, b)
    ensures a == b
  {
    var prefix := "author" + " " + NAME + " <" + EMAIL + "> ";
    var s, t := Seconds(a / 1000), Seconds(b / 1000);
    assert Person("author", NAME, EMAIL, a) == prefix + (s + " +0000");
    assert Person("author", NAME, EMAIL, b) == prefix + (t + " +0000");
    Tails(prefix, s + " +0000", t + " +0000");
    assert (s + " +0000")[..|s|] == s && (t + " +0000")[..|t|] == t;
    assert |s| == |t|;
    SecondsApart(a / 1000, b / 1000);
  }

  // ----- the repository

  datatype Error = InvalidPlan | StaleHead | StaleMain | StaleRelation | StateConflict

  datatype Result<T> = Ok(value: T) | Err(error: Error)

  datatype Settlement = Advanced | Replayed

  /** The result a plan stands for, whatever the repository holds: main itself, or the id of the merge commit. */
  function ResultOf(hash: string -> Oid, p: Plan): Option<Oid> {
    if !p.merge then Some(p.expectedMain)
    else match CommitBytes(p) case None => None case Some(bytes) => Some(hash(bytes))
  }

  /** Digests do not collide. */
  ghost predicate Injective(hash: string -> Oid) {
    forall a: string, b: string :: hash(a) == hash(b) ==> a == b
  }

  lemma MergeOnly(p: Plan)
    requires CommitBytes(p).Some?
    ensures p.merge
  {}

  /** Under one digest, two plans have the same merge commit exactly when they agree on what enters it. */
  lemma SameResult(hash: string -> Oid, p: Plan, q: Plan)
    requires Injective(hash) && WellFormed(p) && WellFormed(q) && CommitBytes(p).Some? && CommitBytes(q).Some?
    ensures ResultOf(hash, p) == ResultOf(hash, q) <==>
              p.commit.tree == q.commit.tree && p.expectedMain == q.expectedMain && p.expectedHead == q.expectedHead
              && p.request == q.request && p.preparedAt == q.preparedAt
  {
    hide CommitBytes, WellFormed;
    MergeOnly(p);
    MergeOnly(q);
    BytesInjective(p, q);
  }

  class Repository {
    const hash: string -> Oid
    const ancestor: (Oid, Oid) -> bool
    const treeAccepted: Oid -> bool
    const oidLength: nat
    var commits: map<Oid, string>
    var refs: map<Ref, Oid>
    /** Every change of main, in order. */
    ghost var moves: seq<(Oid, Oid)>

    ghost predicate Valid()
      reads this
    {
      Injective(hash) && forall oid | oid in commits :: hash(commits[oid]) == oid
    }

    predicate RefIs(name: Ref, oid: Oid)
      reads this
    {
      name in refs && refs[name] == oid
    }

    /** `materializeAcceptResult`: the result is the plan's own, every time; no ref changes. */
    method MaterializeAcceptResult(p: Plan) returns (r: Result<Oid>)
      requires Valid()
      modifies this`commits
      ensures Valid() && old(commits).Keys <= commits.Keys
      ensures r.Ok? <==>
                && WellFormed(p) && oidLength == p.oidLength && RefIs(p.personalRef, p.expectedHead)
                && (forall i | 0 <= i < |p.relations| :: ancestor(p.relations[i], p.expectedHead))
                && ResultOf(hash, p).Some?
                && (var oid := ResultOf(hash, p).value;
                    && (p.result.Some? ==> p.result.value == oid)
                    && if p.merge
                       then treeAccepted(p.commit.tree) && |oid| == oidLength
                            && (RefIs(p.mainRef, p.expectedMain) || RefIs(p.mainRef, oid))
                       else RefIs(p.mainRef, p.expectedMain) && ancestor(p.expectedHead, p.expectedMain)
                            && treeAccepted(p.expectedMain))
      ensures r.Ok? ==>
                && ResultOf(hash, p) == Some(r.value) && (p.result.Some? ==> p.result.value == r.value)
                && RefIs(p.personalRef, p.expectedHead)
                && (RefIs(p.mainRef, p.expectedMain) || (p.merge && RefIs(p.mainRef, r.value)))
                && (forall i | 0 <= i < |p.relations| :: ancestor(p.relations[i], p.expectedHead))
                && (p.merge ==> treeAccepted(p.commit.tree) && r.value in commits && CommitBytes(p) == Some(commits[r.value]))
                && (!p.merge ==> treeAccepted(p.expectedMain) && ancestor(p.expectedHead, p.expectedMain))
    {
      hide CommitBytes;
      if !WellFormed(p) { return Err(InvalidPlan); }
      if oidLength != p.oidLength { return Err(StateConflict); }
      if !RefIs(p.personalRef, p.expectedHead) { return Err(StaleHead); }
      for i := 0 to |p.relations|
        invariant forall j | 0 <= j < i :: ancestor(p.relations[j], p.expectedHead)
      {
        if !ancestor(p.relations[i], p.expectedHead) { return Err(StaleRelation); }
      }
      if !p.merge {
        if !RefIs(p.mainRef, p.expectedMain) { return Err(StaleMain); }
        if p.result.Some? && p.result.value != p.expectedMain { return Err(InvalidPlan); }
        if !ancestor(p.expectedHead, p.expectedMain) || !treeAccepted(p.expectedMain) { return Err(StateConflict); }
        return Ok(p.expectedMain);
      }
      var bytes := CommitBytes(p);
      if bytes.None? { return Err(InvalidPlan); }
      if !treeAccepted(p.commit.tree) { return Err(StateConflict); }
      var oid := hash(bytes.value);
      if oid !in commits {
        commits := commits[oid := bytes.value];
      }
      if |oid| != oidLength || (p.result.Some? && oid != p.result.value) { return Err(StateConflict); }
      if commits[oid] != bytes.value { return Err(StateConflict); }
      if !RefIs(p.mainRef, p.expectedMain) && !RefIs(p.mainRef, oid) { return Err(StaleMain); }
      r := Ok(oid);
    }

    /** Somebody else's work between two commands: any ref but main. */
    method Elsewhere(main: Ref, alone: bool)
      modifies this`refs
      ensures alone ==> refs == old(refs)
      ensures main in refs <==> main in old(refs)
      ensures main in refs ==> refs[main] == old(refs)[main]
    {
      var others: map<Ref, Oid> := *;
      if !alone {
        refs := if main in refs then others[main := refs[main]] else others - {main};
      }
    }

    /** The atomic compare-and-swap. With `faults` it may fail, and a failed one may have taken effect. */
    method UpdateRef(main: Ref, oid: Oid, expected: Oid, faults: bool) returns (ok: bool)
      modifies this`refs, this`moves
      ensures (refs == old(refs) && moves == old(moves))
              || (old(RefIs(main, expected)) && refs == old(refs)[main := oid] && moves == old(moves) + [(expected, oid)])
      ensures ok ==> old(RefIs(main, expected)) && refs == old(refs)[main := oid]
      ensures !faults && old(RefIs(main, expected)) ==> ok
    {
      var lost: bool, took: bool := *, *;
      ok := (!faults || !lost) && RefIs(main, expected);
      if RefIs(main, expected) && (ok || took) {
        refs := refs[main := oid];
        moves := moves + [(expected, oid)];
      }
    }

    /** What a plan and its result must satisfy before main is looked at. */
    predicate Settleable(p: Plan, oid: Oid)
      reads this
    {
      && WellFormed(p) && oidLength == p.oidLength == |oid| && RefIs(p.personalRef, p.expectedHead)
      && if p.merge
         then treeAccepted(p.commit.tree) && oid in commits && CommitBytes(p) == Some(commits[oid])
         else oid == p.expectedMain && treeAccepted(oid)
    }

    /** `settleAcceptMain`: main moves at most once, from the expected value to the result; every success leaves it
        at the result, and where it moved no other ref differs from what was read before. With main at the result
        already it always succeeds; with nothing in the way it does exactly when main is there or as expected. */
    method SettleAcceptMain(p: Plan, oid: Oid, alone: bool, faults: bool) returns (r: Result<Settlement>, ghost seen: map<Ref, Oid>)
      requires Valid()
      modifies this`refs, this`moves
      ensures alone ==> seen == old(refs)
      ensures moves == old(moves) || (moves == old(moves) + [(p.expectedMain, oid)] && old(RefIs(p.mainRef, p.expectedMain)))
      ensures r.Ok? ==> RefIs(p.mainRef, oid) && (p.merge ==> oid in commits && CommitBytes(p) == Some(commits[oid]))
      ensures r == Ok(Advanced) ==>
                p.merge && |moves| == |old(moves)| + 1 && p.mainRef in seen && seen[p.mainRef] == p.expectedMain
                && refs == seen[p.mainRef := oid]
      ensures r == Ok(Replayed) && alone ==> refs == seen || refs == seen[p.mainRef := oid]
      ensures r.Ok? ==> p.personalRef in seen && seen[p.personalRef] == p.expectedHead
      ensures r.Err? && moves == old(moves) && alone ==> refs == old(refs)
      ensures old(Settleable(p, oid) && RefIs(p.mainRef, oid)) ==> r == Ok(Replayed)
      ensures r.Ok? ==> old(Settleable(p, oid))
      ensures alone && !faults ==>
                && (r == Ok(Replayed) <==> old(Settleable(p, oid) && RefIs(p.mainRef, oid)))
                && (r == Ok(Advanced) <==>
                      old(Settleable(p, oid) && !RefIs(p.mainRef, oid) && p.merge && RefIs(p.mainRef, p.expectedMain)))
    {
      hide CommitBytes;
      seen := refs;
      if !WellFormed(p) { return Err(InvalidPlan), seen; }
      if oidLength != p.oidLength || |oid| != oidLength { return Err(StateConflict), seen; }
      if !p.merge {
        if oid != p.expectedMain { return Err(InvalidPlan), seen; }
        if !treeAccepted(oid) { return Err(StateConflict), seen; }
      } else {
        var bytes := CommitBytes(p);
        if bytes.None? { return Err(InvalidPlan), seen; }
        if !treeAccepted(p.commit.tree) || oid !in commits || commits[oid] != bytes.value { return Err(StateConflict), seen; }
      }
      var before := refs;
      if !RefIs(p.personalRef, p.expectedHead) { return Err(StaleHead), seen; }
      if RefIs(p.mainRef, oid) { return Ok(Replayed), seen; }
      if !RefIs(p.mainRef, p.expectedMain) || !p.merge { return Err(StaleMain), seen; }
      Elsewhere(p.mainRef, alone);
      var ok := UpdateRef(p.mainRef, oid, p.expectedMain, faults);
      Elsewhere(p.mainRef, alone);
      if !ok {
        if RefIs(p.mainRef, oid) { return Ok(Replayed), seen; }
        return Err(StateConflict), seen;
      }
      if refs != before[p.mainRef := oid] { return Err(StateConflict), seen; }
      r := Ok(Advanced);
    }
  }
}
