/** What a push accepted by the pre-receive hook can do to the object graph and to the refs. The revision walks of
    Git are oracles with exact answers. */
module ReceivePolicy {
  import opened Common

  type Oid = nat

  type Ref = nat

  datatype Kind = Blob | TreeKind | CommitKind

  /** An object and what it refers to; `parents` are the commits among them. */
  datatype Object = Object(kind: Kind, size: nat, children: set<Oid>, parents: set<Oid>)

  type Store = map<Oid, Object>

  ghost predicate WellLinked(store: Store) {
    forall oid | oid in store :: store[oid].parents <= store[oid].children
  }

  // ----- reachability

  /** Consecutive objects refer to each other; only the last may be missing. `history` follows parents alone. */
  ghost predicate Path(store: Store, p: seq<Oid>, history: bool) {
    p != [] && forall i | 0 <= i < |p| - 1 ::
      p[i] in store && p[i + 1] in if history then store[p[i]].parents else store[p[i]].children
  }

  ghost predicate Leads(store: Store, p: seq<Oid>, from: Oid, to: Oid, history: bool) {
    Path(store, p, history) && p[0] == from && p[|p| - 1] == to
  }

  ghost predicate Reaches(store: Store, from: Oid, to: Oid) { exists p :: Leads(store, p, from, to, false) }

  ghost predicate Precedes(store: Store, from: Oid, to: Oid) { exists p :: Leads(store, p, from, to, true) }

  lemma ReachesItself(store: Store, oid: Oid)
    ensures Reaches(store, oid, oid) && Precedes(store, oid, oid)
  {
    assert Leads(store, [oid], oid, oid, false) && Leads(store, [oid], oid, oid, true);
  }

  lemma Chained(store: Store, a: Oid, b: Oid, c: Oid)
    requires Reaches(store, a, b) && Reaches(store, b, c)
    ensures Reaches(store, a, c)
  {
    var p :| Leads(store, p, a, b, false);
    var q :| Leads(store, q, b, c, false);
    var r := p + q[1..];
    assert forall i | |p| - 1 <= i < |r| :: r[i] == q[i - |p| + 1];
    assert Leads(store, r, a, c, false);
  }

  lemma HistoryReaches(store: Store, a: Oid, b: Oid)
    requires WellLinked(store) && Precedes(store, a, b)
    ensures Reaches(store, a, b)
  {
    var p :| Leads(store, p, a, b, true);
    assert Leads(store, p, a, b, false);
  }

  /** More objects never make anything unreachable. */
  lemma ReachesMore(small: Store, big: Store, a: Oid, b: Oid)
    requires Reaches(small, a, b) && forall oid | oid in small :: oid in big && big[oid] == small[oid]
    ensures Reaches(big, a, b)
  {
    var p :| Leads(small, p, a, b, false);
    assert Leads(big, p, a, b, false);
  }

  // ----- what the hook decides

  datatype Limits = Limits(repositoryBytes: nat, blobBytes: nat)

  /** One pushed command. */
  datatype Push = Push(from: Oid, tip: Oid, ref: Ref)

  datatype Line = Present(oid: Oid) | Missing(oid: Oid)

  /** `rev-list --objects --missing=print from ^beyond`, exactly. */
  ghost predicate Lists(lines: seq<Line>, store: Store, from: Oid, beyond: Option<Oid>) {
    forall oid ::
      var listed := Reaches(store, from, oid) && (beyond.Some? ==> !Reaches(store, beyond.value, oid));
      (Present(oid) in lines <==> listed && oid in store) && (Missing(oid) in lines <==> listed && oid !in store)
  }

  /** `rev-list --max-count=1 from ^beyond`: empty exactly when all of the history of one lies in that of the other. */
  ghost predicate ListsHistory(lines: seq<Oid>, store: Store, from: Oid, beyond: Oid) {
    lines == [] <==> forall oid :: Precedes(store, from, oid) ==> Precedes(store, beyond, oid)
  }

  function Total(objects: seq<(Oid, Object)>): nat {
    if objects == [] then 0 else Total(objects[..|objects| - 1]) + objects[|objects| - 1].1.size
  }

  /** `cat-file --batch-all-objects`, each object once. */
  ghost predicate Inventories(objects: seq<(Oid, Object)>, store: Store) {
    && (forall i, j | 0 <= i < j < |objects| :: objects[i].0 != objects[j].0)
    && (forall i | 0 <= i < |objects| :: objects[i].0 in store && store[objects[i].0] == objects[i].1)
    && (forall oid | oid in store :: exists i :: 0 <= i < |objects| && objects[i].0 == oid)
  }

  /** The hook's decision about the graph: a fast-forward; sizes within bounds; every object either was there or is
      new and reachable from the new tip but not from the old; and nothing the new tip needs is missing. */
  ghost predicate Accepts(limits: Limits, canonical: set<Oid>, store: Store, refs: map<Ref, Oid>, personal: Ref, push: Push) {
    && push.ref == personal && personal in refs && refs[personal] == push.from && push.from != push.tip
    && push.tip in store && store[push.tip].kind.CommitKind?
    && (forall oid :: Precedes(store, push.from, oid) ==> Precedes(store, push.tip, oid))
    && (forall oid | oid in store :: store[oid].kind.Blob? ==> store[oid].size <= limits.blobBytes)
    && (forall oid | oid in store :: oid in canonical || (Reaches(store, push.tip, oid) && !Reaches(store, push.from, oid)))
    && (forall oid :: Reaches(store, push.tip, oid) ==> oid in store)
  }

  lemma {:induction false} TotalMonotone(objects: seq<(Oid, Object)>, i: nat)
    requires i <= |objects|
    ensures Total(objects[..i]) <= Total(objects)
    decreases |objects|
  {
    if i < |objects| {
      TotalMonotone(objects[..|objects| - 1], i);
      assert objects[..|objects| - 1][..i] == objects[..i];
    } else {
      assert objects[..i] == objects;
    }
  }

  /** `inventory`: a running total that stops at the first excess. */
  method Inventory(limits: Limits, objects: seq<(Oid, Object)>) returns (ids: Option<set<Oid>>)
    requires forall i, j | 0 <= i < j < |objects| :: objects[i].0 != objects[j].0
    ensures ids.Some? <==>
              objects != [] && Total(objects) <= limits.repositoryBytes
              && forall i | 0 <= i < |objects| :: objects[i].1.kind.Blob? ==> objects[i].1.size <= limits.blobBytes
    ensures ids.Some? ==> forall oid :: oid in ids.value <==> exists i :: 0 <= i < |objects| && objects[i].0 == oid
  {
    if objects == [] { return None; }
    var repositoryBytes, result: set<Oid> := 0, {};
    for i := 0 to |objects|
      invariant repositoryBytes == Total(objects[..i]) <= limits.repositoryBytes
      invariant forall j | 0 <= j < i :: objects[j].1.kind.Blob? ==> objects[j].1.size <= limits.blobBytes
      invariant forall oid :: oid in result <==> exists j :: 0 <= j < i && objects[j].0 == oid
    {
      var oid, entry := objects[i].0, objects[i].1;
      assert objects[..i + 1][..i] == objects[..i];
      TotalMonotone(objects, i + 1);
      repositoryBytes := repositoryBytes + entry.size;
      if repositoryBytes > limits.repositoryBytes { return None; }
      if entry.kind.Blob? && entry.size > limits.blobBytes { return None; }
      result := result + {oid};
    }
    assert objects[..|objects|] == objects;
    ids := Some(result);
  }

  /** Collects the objects a walk lists; a missing one rejects. */
  method AllowedDelta(lines: seq<Line>) returns (allowed: Option<set<Oid>>)
    ensures allowed.Some? <==> forall oid :: Missing(oid) !in lines
    ensures allowed.Some? ==> forall oid :: oid in allowed.value <==> Present(oid) in lines
  {
    var result: set<Oid> := {};
    for i := 0 to |lines|
      invariant forall oid :: Missing(oid) !in lines[..i]
      invariant forall oid :: oid in result <==> Present(oid) in lines[..i]
    {
      assert lines[..i + 1] == lines[..i] + [lines[i]];
      if lines[i].Missing? {
        assert Missing(lines[i].oid) in lines;
        return None;
      }
      result := result + {lines[i].oid};
    }
    assert lines[..|lines|] == lines;
    allowed := Some(result);
  }

  /** `validate`, but for the trees: accepted exactly when the graph satisfies the policy. */
  method Validate(limits: Limits, canonical: set<Oid>, ghost store: Store, refs: map<Ref, Oid>, personal: Ref, push: Push,
                  newKind: Option<Kind>, excluded: seq<Oid>, objects: seq<(Oid, Object)>, delta: seq<Line>,
                  reachable: seq<Line>) returns (accepted: bool)
    requires newKind == if push.tip in store then Some(store[push.tip].kind) else None
    requires ListsHistory(excluded, store, push.from, push.tip) && Inventories(objects, store)
    requires Lists(delta, store, push.tip, Some(push.from)) && Lists(reachable, store, push.tip, None)
    ensures accepted <==> Accepts(limits, canonical, store, refs, personal, push) && Total(objects) <= limits.repositoryBytes
  {
    hide Reaches, Precedes, Total;
    ReachesItself(store, push.tip);
    if push.from == push.tip || push.ref != personal || personal !in refs || refs[personal] != push.from { return false; }
    if newKind != Some(CommitKind) { return false; }
    if excluded != [] { return false; }
    var ids := Inventory(limits, objects);
    InventoryMeans(limits, objects, store, ids);
    if ids.None? { return false; }
    var allowed := AllowedDelta(delta);
    if allowed.None? {
      MissingMatters(delta, store, push.tip, Some(push.from));
      return false;
    }
    for i := 0 to |objects|
      invariant forall j | 0 <= j < i :: objects[j].0 in canonical || objects[j].0 in allowed.value
    {
      if objects[i].0 !in canonical && objects[i].0 !in allowed.value {
        assert Present(objects[i].0) !in delta && objects[i].0 in store;
        return false;
      }
    }
    DeltaMeans(canonical, objects, store, allowed.value, delta, push);
    accepted := NothingMissing(reachable, ids.value);
    ReachableMeans(reachable, store, push.tip, ids.value);
  }

  method NothingMissing(lines: seq<Line>, ids: set<Oid>) returns (ok: bool)
    ensures ok <==> forall line | line in lines :: line.Present? && line.oid in ids
  {
    for i := 0 to |lines|
      invariant forall line | line in lines[..i] :: line.Present? && line.oid in ids
    {
      assert lines[..i + 1] == lines[..i] + [lines[i]];
      if lines[i].Missing? || lines[i].oid !in ids {
        return false;
      }
    }
    assert lines[..|lines|] == lines;
    ok := true;
  }

  lemma InventoryMeans(limits: Limits, objects: seq<(Oid, Object)>, store: Store, ids: Option<set<Oid>>)
    requires Inventories(objects, store)
    requires ids.Some? <==>
               objects != [] && Total(objects) <= limits.repositoryBytes
               && forall i | 0 <= i < |objects| :: objects[i].1.kind.Blob? ==> objects[i].1.size <= limits.blobBytes
    requires ids.Some? ==> forall oid :: oid in ids.value <==> exists i :: 0 <= i < |objects| && objects[i].0 == oid
    ensures ids.Some? ==> forall oid :: oid in ids.value <==> oid in store
    ensures ids.Some? <==>
              objects != [] && Total(objects) <= limits.repositoryBytes
              && forall oid | oid in store :: store[oid].kind.Blob? ==> store[oid].size <= limits.blobBytes
  {
    hide Total;
    forall oid | oid in store ensures exists i :: 0 <= i < |objects| && objects[i] == (oid, store[oid]) {
      var i :| 0 <= i < |objects| && objects[i].0 == oid;
      assert objects[i] == (oid, store[oid]);
    }
  }

  lemma MissingMatters(lines: seq<Line>, store: Store, from: Oid, beyond: Option<Oid>)
    requires Lists(lines, store, from, beyond) && exists oid :: Missing(oid) in lines
    ensures exists oid :: Reaches(store, from, oid) && oid !in store
  {
    hide Reaches;
    var oid :| Missing(oid) in lines;
    assert Reaches(store, from, oid);
  }

  lemma DeltaMeans(canonical: set<Oid>, objects: seq<(Oid, Object)>, store: Store, allowed: set<Oid>, delta: seq<Line>, push: Push)
    requires Inventories(objects, store) && Lists(delta, store, push.tip, Some(push.from))
    requires forall oid :: oid in allowed <==> Present(oid) in delta
    requires forall j | 0 <= j < |objects| :: objects[j].0 in canonical || objects[j].0 in allowed
    ensures forall oid | oid in store :: oid in canonical || (Reaches(store, push.tip, oid) && !Reaches(store, push.from, oid))
  {
    hide Reaches;
    forall oid | oid in store
      ensures oid in canonical || (Reaches(store, push.tip, oid) && !Reaches(store, push.from, oid))
    {
      var i :| 0 <= i < |objects| && objects[i].0 == oid;
    }
  }

  lemma ReachableMeans(lines: seq<Line>, store: Store, from: Oid, ids: set<Oid>)
    requires Lists(lines, store, from, None) && forall oid :: oid in ids <==> oid in store
    ensures (forall line | line in lines :: line.Present? && line.oid in ids) <==> forall oid :: Reaches(store, from, oid) ==> oid in store
  {
    hide Reaches;
    forall line | line in lines ensures line.Present? ==> line.oid in store {
      assert line.Present? ==> line == Present(line.oid);
    }
    forall line | line in lines ensures line.Missing? ==> Reaches(store, from, line.oid) && line.oid !in store {
      assert line.Missing? ==> line == Missing(line.oid);
    }
    forall oid | Reaches(store, from, oid) && oid !in store ensures Missing(oid) in lines {}
  }

  // ----- what an accepted push does

  /** After the push the personal ref is at the new tip. */
  function Moved(refs: map<Ref, Oid>, push: Push): map<Ref, Oid> { refs[push.ref := push.tip] }

  ghost predicate Referenced(store: Store, refs: map<Ref, Oid>, oid: Oid) {
    exists r :: r in refs && Reaches(store, refs[r], oid)
  }

  /** The canonical store, to which the push added objects. */
  ghost predicate Extends(canonical: Store, store: Store) {
    forall oid | oid in canonical :: oid in store && store[oid] == canonical[oid]
  }

  /** An accepted push is a fast-forward. */
  lemma FastForward(limits: Limits, canonical: set<Oid>, store: Store, refs: map<Ref, Oid>, personal: Ref, push: Push)
    requires WellLinked(store) && Accepts(limits, canonical, store, refs, personal, push)
    ensures Precedes(store, push.tip, push.from) && Reaches(store, push.tip, push.from)
  {
    ReachesItself(store, push.from);
    HistoryReaches(store, push.tip, push.from);
  }

  /** Everything some ref reached before, some ref reaches after. */
  lemma NothingLost(limits: Limits, canonical: Store, store: Store, refs: map<Ref, Oid>, personal: Ref, push: Push, oid: Oid)
    requires WellLinked(store) && Extends(canonical, store) && Accepts(limits, canonical.Keys, store, refs, personal, push)
    requires Referenced(canonical, refs, oid)
    ensures Referenced(store, Moved(refs, push), oid)
  {
    hide Reaches, Precedes;
    var r :| r in refs && Reaches(canonical, refs[r], oid);
    ReachesMore(canonical, store, refs[r], oid);
    FastForward(limits, canonical.Keys, store, refs, personal, push);
    if r == personal {
      Chained(store, push.tip, push.from, oid);
      assert Reaches(store, Moved(refs, push)[personal], oid);
    } else {
      assert Reaches(store, Moved(refs, push)[r], oid);
    }
  }

  /** Nothing unreachable is added: whatever no ref reaches afterwards was there before. */
  lemma NoGarbageAdded(limits: Limits, canonical: Store, store: Store, refs: map<Ref, Oid>, personal: Ref, push: Push, oid: Oid)
    requires WellLinked(store) && Extends(canonical, store) && Accepts(limits, canonical.Keys, store, refs, personal, push)
    requires oid in store && !Referenced(store, Moved(refs, push), oid)
    ensures oid in canonical && !Referenced(canonical, refs, oid)
  {
    hide Reaches, Precedes;
    assert !Reaches(store, Moved(refs, push)[personal], oid);
    if Referenced(canonical, refs, oid) {
      NothingLost(limits, canonical, store, refs, personal, push, oid);
    }
  }

  /** Nothing dangles: when no ref led to a missing object before, none does after. */
  lemma NothingDangles(limits: Limits, canonical: Store, store: Store, refs: map<Ref, Oid>, personal: Ref, push: Push)
    requires Extends(canonical, store) && Accepts(limits, canonical.Keys, store, refs, personal, push)
    requires forall oid :: Referenced(canonical, refs, oid) ==> oid in canonical
    ensures forall oid :: Referenced(store, Moved(refs, push), oid) ==> oid in store
  {
    hide Precedes;
    forall oid | Referenced(store, Moved(refs, push), oid) ensures oid in store {
      var r :| r in Moved(refs, push) && Reaches(store, Moved(refs, push)[r], oid);
      if r != personal {
        ReachedInside(canonical, store, refs, r, oid);
      }
    }
  }

  /** From a ref whose closure is complete, a larger store leads nowhere new. */
  lemma ReachedInside(canonical: Store, store: Store, refs: map<Ref, Oid>, r: Ref, oid: Oid)
    requires Extends(canonical, store) && r in refs && Reaches(store, refs[r], oid)
    requires forall o :: Referenced(canonical, refs, o) ==> o in canonical
    ensures oid in canonical
  {
    var p :| Leads(store, p, refs[r], oid, false);
    PathInside(canonical, store, refs, r, p);
  }

  lemma {:induction false} PathInside(canonical: Store, store: Store, refs: map<Ref, Oid>, r: Ref, p: seq<Oid>)
    requires Extends(canonical, store) && r in refs && Path(store, p, false) && p[0] == refs[r]
    requires forall o :: Referenced(canonical, refs, o) ==> o in canonical
    ensures p[|p| - 1] in canonical && Leads(canonical, p, refs[r], p[|p| - 1], false)
    decreases |p|
  {
    var n := |p| - 1;
    if n > 0 {
      PathInside(canonical, store, refs, r, p[..n]);
    }
    assert Leads(canonical, p, refs[r], p[n], false);
    assert Reaches(canonical, refs[r], p[n]);
    assert Referenced(canonical, refs, p[n]);
  }

  // ----- the check after the push

  datatype Outcome = Outcome(ref: Ref, from: Oid, tip: Oid)

  lemma {:induction false} SameSize<V>(a: map<Ref, V>, b: map<Ref, V>)
    requires |a| == |b| && a.Keys <= b.Keys
    ensures a.Keys == b.Keys
  {
    assert |a| == |a.Keys| && |b| == |b.Keys|;
    if a.Keys != b.Keys {
      var x :| x in b.Keys && x !in a.Keys;
      SubsetCardinality(a.Keys, b.Keys - {x});
    }
  }

  /** `sameRefs`: equal sizes and every ref of one found in the other. */
  method SameRefs(left: map<Ref, Oid>, right: map<Ref, Oid>) returns (same: bool)
    ensures same <==> left == right
  {
    if |left| != |right| { return false; }
    var rest := left.Keys;
    while rest != {}
      invariant rest <= left.Keys
      invariant forall r | r in left && r !in rest :: r in right && right[r] == left[r]
      decreases |rest|
    {
      var r :| r in rest;
      if r !in right || right[r] != left[r] { return false; }
      rest := rest - {r};
    }
    SameSize(left, right);
    same := true;
  }

  /** The comparison of all refs after `receive-pack`: it passes exactly when nothing changed and no result was
      recorded, or only the personal ref changed, from the old to the new value of the result. */
  method CheckRefs(before: map<Ref, Oid>, after: map<Ref, Oid>, personal: Ref, result: Option<Outcome>) returns (ok: bool)
    ensures result.None? ==> (ok <==> after == before)
    ensures result.Some? ==>
              (ok <==> result.value.ref == personal && personal in before && before[personal] == result.value.from
                       && result.value.from != result.value.tip && after == before[personal := result.value.tip])
  {
    if result.None? {
      ok := SameRefs(before, after);
      return;
    }
    var outcome := result.value;
    if outcome.ref != personal || personal !in before || outcome.from != before[personal]
       || personal !in after || after[personal] != outcome.tip || |after| != |before| {
      MovedSize(before, personal, outcome.tip);
      return false;
    }
    var rest := before.Keys;
    while rest != {}
      invariant rest <= before.Keys
      invariant forall r | r in before && r !in rest ::
        if r == personal then after[r] != before[r] else r in after && after[r] == before[r]
      decreases |rest|
    {
      var r :| r in rest;
      if (r == personal && after[r] == before[r]) || (r != personal && (r !in after || after[r] != before[r])) {
        return false;
      }
      rest := rest - {r};
    }
    SameSize(before, after);
    ok := true;
  }

  lemma MovedSize(before: map<Ref, Oid>, personal: Ref, tip: Oid)
    ensures personal in before ==> |before[personal := tip]| == |before|
  {
    if personal in before {
      assert before[personal := tip].Keys == before.Keys;
      assert |before[personal := tip]| == |before[personal := tip].Keys| && |before| == |before.Keys|;
    }
  }
}
