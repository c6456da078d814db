/** Pages of the project authority: the longest prefix of a list that fits a byte budget, and the cursor that leads
    to the rest. Items, keys and cursors are serialised by given functions. */
module AuthorityPage {
  import opened Common

  /** How items become JSON, what their keys are, how a key is written as a cursor, how text is quoted. */
  datatype Layout<!T, !K> = Layout(json: T -> Bytes, key: T -> K, encode: K -> Text, quote: Text -> Bytes,
                                   field: Text, cursorField: Text, maximum: int)

  const COMMA: Byte := 0x2c

  // ----- JSON of a page

  function Commas(items: seq<Bytes>): Bytes {
    if items == [] then [] else if |items| == 1 then items[0]
    else Commas(items[..|items| - 1]) + [COMMA] + items[|items| - 1]
  }

  function Array(items: seq<Bytes>): Bytes { [0x5b] + Commas(items) + [0x5d] }

  function Items<T, K>(l: Layout<T, K>, items: seq<T>): (b: seq<Bytes>)
    ensures |b| == |items|
  {
    seq(|items|, i requires 0 <= i < |items| => l.json(items[i]))
  }

  /** The serialised page: one field with the items, and the cursor when there is one. */
  function PageJson<T, K>(l: Layout<T, K>, items: seq<T>, cursor: Option<Text>): Bytes {
    [0x7b] + l.quote(l.field) + [0x3a] + Array(Items(l, items))
    + (if cursor.Some? then [COMMA] + l.quote(l.cursorField) + [0x3a] + l.quote(cursor.value) else []) + [0x7d]
  }

  lemma NoCommas()
    ensures Commas([]) == []
  {}

  lemma CommasMore(items: seq<Bytes>, item: Bytes)
    ensures |Commas(items + [item])| == |Commas(items)| + |item| + if items == [] then 0 else 1
  {
    assert (items + [item])[..|items|] == items;
  }

  lemma PageSize<T, K>(l: Layout<T, K>, items: seq<T>, cursor: Option<Text>)
    ensures |PageJson(l, items, cursor)| == |PageJson(l, [], cursor)| + |Commas(Items(l, items))|
  {
    assert Items(l, []) == [];
    assert Commas([]) == [];
  }

  // ----- what a page should be

  /** The cursor after the first `n` items: their last key, when anything follows. */
  function CursorAfter<T, K>(l: Layout<T, K>, items: seq<T>, hasMore: bool, n: nat): Option<Text>
    requires n <= |items|
  {
    if n > 0 && (n < |items| || hasMore) then Some(l.encode(l.key(items[n - 1]))) else None
  }

  predicate Fits<T, K>(l: Layout<T, K>, items: seq<T>, hasMore: bool, n: nat)
    requires n <= |items|
  {
    |PageJson(l, items[..n], CursorAfter(l, items, hasMore, n))| <= l.maximum
  }

  /** The length of the longest prefix, from `n` on, all of whose longer prefixes up to it fit. */
  function Longest<T, K>(l: Layout<T, K>, items: seq<T>, hasMore: bool, n: nat): (k: nat)
    requires n <= |items|
    ensures n <= k <= |items|
    decreases |items| - n
  {
    if n < |items| && Fits(l, items, hasMore, n + 1) then Longest(l, items, hasMore, n + 1) else n
  }

  lemma {:induction false} LongestMeans<T, K>(l: Layout<T, K>, items: seq<T>, hasMore: bool, n: nat, k: nat)
    requires n <= k <= |items|
    ensures k == Longest(l, items, hasMore, n) <==>
              (forall j | n < j <= k :: Fits(l, items, hasMore, j)) && (k < |items| ==> !Fits(l, items, hasMore, k + 1))
    decreases |items| - n
  {
    hide Fits;
    if n < |items| && Fits(l, items, hasMore, n + 1) && n < k {
      LongestMeans(l, items, hasMore, n + 1, k);
    }
  }

  datatype Page<T> = Page(items: seq<T>, cursor: Option<Text>) | Exceeds

  /** The page: nothing for nothing, an error when not even one item fits, and the longest fitting prefix otherwise. */
  function Bounded<T, K>(l: Layout<T, K>, items: seq<T>, hasMore: bool): Page<T> {
    var n := Longest(l, items, hasMore, 0);
    if n == 0 && items != [] then Exceeds else Page(items[..n], CursorAfter(l, items, hasMore, n))
  }

  /** `boundProjectAuthorityPage`: the running byte count is that of the serialised items, and the check at the end
      never fires. */
  method BoundPage<T, K>(l: Layout<T, K>, items: seq<T>, hasMore: bool) returns (r: Page<T>)
    ensures r == Bounded(l, items, hasMore)
    ensures r.Page? && r.items != [] ==> |PageJson(l, r.items, r.cursor)| <= l.maximum
  {
    hide PageJson, Longest, Commas;
    var accepted: seq<T>, nextCursor, itemsBytes := [], None, 0;
    NoCommas();
    assert items[..0] == [];
    var index := 0;
    while index < |items|
      invariant 0 <= index <= |items| && accepted == items[..index]
      invariant itemsBytes == |Commas(Items(l, accepted))|
      invariant nextCursor == CursorAfter(l, items, hasMore, index)
      invariant Longest(l, items, hasMore, 0) == Longest(l, items, hasMore, index)
      invariant index > 0 ==> Fits(l, items, hasMore, index)
    {
      var item := items[index];
      var candidate := itemsBytes + |l.json(item)| + if |accepted| == 0 then 0 else 1;
      var more := index + 1 < |items| || hasMore;
      var cursor := if more then Some(l.encode(l.key(item))) else None;
      Counted(l, items, hasMore, index);
      LongestUnfold(l, items, hasMore, index);
      if |PageJson(l, [], cursor)| + candidate > l.maximum {
        if |accepted| == 0 { return Exceeds; }
        break;
      }
      accepted := accepted + [item];
      itemsBytes := candidate;
      nextCursor := cursor;
      index := index + 1;
    }
    LongestUnfold(l, items, hasMore, index);
    if |accepted| > 0 && |PageJson(l, accepted, nextCursor)| > l.maximum {
      assert false;
    }
    r := Page(accepted, nextCursor);
  }

  lemma LongestUnfold<T, K>(l: Layout<T, K>, items: seq<T>, hasMore: bool, n: nat)
    requires n <= |items|
    ensures Longest(l, items, hasMore, n)
            == if n < |items| && Fits(l, items, hasMore, n + 1) then Longest(l, items, hasMore, n + 1) else n
  {}

  /** One more item: the count grows by its size and a comma, and tells exactly whether the page fits. */
  lemma Counted<T, K>(l: Layout<T, K>, items: seq<T>, hasMore: bool, n: nat)
    requires n < |items|
    ensures var size := |Commas(Items(l, items[..n]))| + |l.json(items[n])| + if n == 0 then 0 else 1;
            && items[..n + 1] == items[..n] + [items[n]]
            && |Commas(Items(l, items[..n + 1]))| == size
            && (Fits(l, items, hasMore, n + 1) <==>
                  |PageJson(l, [], CursorAfter(l, items, hasMore, n + 1))| + size <= l.maximum)
  {
    hide PageJson, Commas;
    assert Items(l, items[..n + 1]) == Items(l, items[..n]) + [l.json(items[n])];
    CommasMore(Items(l, items[..n]), l.json(items[n]));
    PageSize(l, items[..n + 1], CursorAfter(l, items, hasMore, n + 1));
  }

  // ----- following cursors

  /** What a query returns: at most `limit` items past a key, and whether there are more. */
  ghost predicate Ordered<T, K(!new)>(l: Layout<T, K>, before: (K, K) -> bool, all: seq<T>) {
    && (forall a, b, c :: before(a, b) && before(b, c) ==> before(a, c))
    && (forall a :: !before(a, a))
    && (forall i, j | 0 <= i < j < |all| :: before(l.key(all[i]), l.key(all[j])))
  }

  /** The items after a key. */
  function Past<T, K>(l: Layout<T, K>, before: (K, K) -> bool, all: seq<T>, key: K): seq<T> {
    if all == [] then []
    else
      var rest, last := Past(l, before, all[..|all| - 1], key), all[|all| - 1];
      if before(key, l.key(last)) then rest + [last] else rest
  }

  lemma {:induction false} PastIndex<T, K(!new)>(l: Layout<T, K>, before: (K, K) -> bool, all: seq<T>, i: nat)
    requires Ordered(l, before, all) && i < |all|
    ensures Past(l, before, all, l.key(all[i])) == all[i + 1..]
    decreases |all|
  {
    var n := |all| - 1;
    var front := all[..n];
    if i < n {
      PastIndex(l, before, front, i);
      assert all[i + 1..] == front[i + 1..] + [all[n]];
    } else {
      NonePast(l, before, front, l.key(all[n]));
      assert all[i + 1..] == [];
    }
  }

  lemma {:induction false} NonePast<T, K>(l: Layout<T, K>, before: (K, K) -> bool, all: seq<T>, key: K)
    requires forall i | 0 <= i < |all| :: !before(key, l.key(all[i]))
    ensures Past(l, before, all, key) == []
    decreases |all|
  {
    if all != [] {
      NonePast(l, before, all[..|all| - 1], key);
    }
  }

  function Min(a: nat, b: nat): nat { if a <= b then a else b }

  /** One request: decode the cursor, query, bound the page. */
  function Request<T, K>(l: Layout<T, K>, before: (K, K) -> bool, decode: Text -> K, all: seq<T>, limit: nat,
                         cursor: Option<Text>): Page<T> {
    var left := if cursor.None? then all else Past(l, before, all, decode(cursor.value));
    Bounded(l, left[..Min(limit, |left|)], |left| > limit)
  }

  /** All items a client sees that follows cursors, in at most `fuel` requests; nothing when a request fails or the
      requests do not suffice. */
  function Follow<T, K>(l: Layout<T, K>, before: (K, K) -> bool, decode: Text -> K, all: seq<T>, limit: nat,
                        cursor: Option<Text>, fuel: nat): Option<seq<T>>
    decreases fuel
  {
    if fuel == 0 then None
    else match Request(l, before, decode, all, limit, cursor)
      case Exceeds => None
      case Page(items, next) =>
        if next.None? then Some(items)
        else match Follow(l, before, decode, all, limit, next, fuel - 1)
          case None => None
          case Some(rest) => Some(items + rest)
  }

  /** Every single item fits, with its cursor when others follow it. */
  ghost predicate EachFits<T, K>(l: Layout<T, K>, all: seq<T>) {
    forall i | 0 <= i < |all| :: Fits(l, [all[i]], i + 1 < |all|, 1)
  }

  lemma OneFits<T, K>(l: Layout<T, K>, all: seq<T>, i: nat, n: nat)
    requires EachFits(l, all) && i < i + n <= |all| && n > 0
    ensures Fits(l, all[i..i + n], i + n < |all|, 1)
  {
    var items := all[i..i + n];
    assert items[..1] == [all[i]] == [all[i]][..1];
    assert Fits(l, [all[i]], i + 1 < |all|, 1);
    assert CursorAfter(l, items, i + n < |all|, 1) == CursorAfter(l, [all[i]], i + 1 < |all|, 1);
    hide PageJson;
  }

  /** Following cursors from the start visits every item exactly once, in order, and ends. */
  lemma VisitsAll<T, K(!new)>(l: Layout<T, K>, before: (K, K) -> bool, decode: Text -> K, all: seq<T>, limit: nat)
    requires Ordered(l, before, all) && EachFits(l, all) && limit > 0
    requires forall k :: decode(l.encode(k)) == k
    ensures Follow(l, before, decode, all, limit, None, |all| + 1) == Some(all)
  {
    assert all[0..] == all;
    FollowFrom(l, before, decode, all, limit, 0, |all| + 1);
  }

  /** The cursor that leads to position `i`. */
  function CursorAt<T, K>(l: Layout<T, K>, all: seq<T>, i: nat): Option<Text>
    requires i <= |all|
  {
    if 0 < i < |all| then Some(l.encode(l.key(all[i - 1]))) else None
  }

  /** One request from position `i`: some items, and the cursor that leads on from there. */
  lemma OnePage<T, K(!new)>(l: Layout<T, K>, before: (K, K) -> bool, decode: Text -> K, all: seq<T>, limit: nat, i: nat)
    returns (k: nat)
    requires Ordered(l, before, all) && EachFits(l, all) && limit > 0 && (i < |all| || i == 0)
    requires forall k :: decode(l.encode(k)) == k
    ensures i + k <= |all| && (k > 0 || i == |all|)
    ensures Request(l, before, decode, all, limit, CursorAt(l, all, i)) == Page(all[i..i + k], CursorAt(l, all, i + k))
  {
    hide Ordered, EachFits, Fits, Longest, Past;
    if i > 0 { PastIndex(l, before, all, i - 1); }
    assert all[0..] == all;
    var left := all[i..];
    var n := Min(limit, |left|);
    var items, more := left[..n], |left| > limit;
    assert items == all[i..i + n];
    LongestUnfold(l, items, more, 0);
    if n > 0 { OneFits(l, all, i, n); }
    k := Longest(l, items, more, 0);
    assert items[..k] == all[i..i + k];
    assert Request(l, before, decode, all, limit, CursorAt(l, all, i)) == Bounded(l, items, more);
  }

  lemma {:induction false} FollowFrom<T, K(!new)>(l: Layout<T, K>, before: (K, K) -> bool, decode: Text -> K, all: seq<T>,
                                                  limit: nat, i: nat, fuel: nat)
    requires Ordered(l, before, all) && EachFits(l, all) && limit > 0 && (i < |all| || i == 0) && fuel > |all| - i
    requires forall k :: decode(l.encode(k)) == k
    ensures Follow(l, before, decode, all, limit, CursorAt(l, all, i), fuel) == Some(all[i..])
    decreases fuel
  {
    hide Ordered, EachFits, Request;
    var k := OnePage(l, before, decode, all, limit, i);
    if i + k < |all| {
      FollowFrom(l, before, decode, all, limit, i + k, fuel - 1);
      assert all[i..i + k] + all[i + k..] == all[i..];
    } else {
      assert all[i..i + k] == all[i..];
    }
  }
}
