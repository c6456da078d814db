/** The pre-receive hook's one-shot parser of the same stream, and its agreement with the chunk-fed one. */
module HookTreeBatch {
  import opened Common
  import opened TreePolicy
  import opened TreeBatch
  import AcceptListing

  /** One entry between `offset` and `end`, searching the whole stream as the hook does: an object id one byte
      short takes in the byte that ends the tree. */
  function HookEntryFrom(settings: Settings, body: Bytes, offset: nat, end: nat): (r: Option<Parsed>)
    requires offset < end < |body|
    ensures r.Some? ==> offset < r.value.next <= end + 1
  {
    match FieldsFrom(settings, body, offset, end)
    case None => None
    case Some(f) =>
      var next := f.nameEnd + 1 + settings.oidBytes;
      Some(Parsed(TreeEntry(f.mode, f.name, Hex(body[f.nameEnd + 1..next])), next))
  }

  function HookEntries(settings: Settings, body: Bytes, offset: nat, end: nat): Option<seq<TreeEntry>>
    requires end < |body|
    decreases end + 1 - offset
  {
    if offset >= end then Some([])
    else match HookEntryFrom(settings, body, offset, end)
      case None => None
      case Some(first) => Prepend([first.entry], HookEntries(settings, body, first.next, end))
  }

  /** The object id of the entry starting the body runs out of bytes. */
  predicate ShortHere(settings: Settings, p: Parsed) { |p.entry.oid| < 2 * settings.oidBytes }

  /** The body's last object id is one byte short. */
  predicate ShortTail(settings: Settings, body: Bytes)
    decreases |body|
  {
    body != [] && match EntryFrom(settings, body, 0)
                  case None => false
                  case Some(p) => ShortHere(settings, p) || ShortTail(settings, body[p.next..])
  }

  /** Inside one tree both parsers accept the same entries, up to a short last object id. */
  lemma HookEntryAgrees(settings: Settings, body: Bytes, offset: nat, end: nat)
    requires settings.oidBytes > 0 && offset < end < |body|
    ensures var p, h := EntryFrom(settings, body[offset..end], 0), HookEntryFrom(settings, body, offset, end);
            && (p.Some? <==> h.Some?)
            && (p.Some? && !ShortHere(settings, p.value) ==>
                  h.value.entry == p.value.entry && h.value.next == offset + p.value.next <= end)
            && (p.Some? && ShortHere(settings, p.value) ==>
                  h.value.entry != p.value.entry && h.value.next == end + 1 && p.value.next == end - offset)
  {
    hide FieldsFrom;
    FieldsInWindow(settings, body, offset, end);
    var f := FieldsFrom(settings, body[offset..end], 0, end - offset);
    if f.Some? {
      var n := f.value.nameEnd;
      if n + 1 + settings.oidBytes <= end - offset {
        Window(body, offset, end, n + 1, n + 1 + settings.oidBytes);
      }
    }
  }

  lemma {:induction false} HookEntriesAgree(settings: Settings, body: Bytes, offset: nat, end: nat)
    requires settings.oidBytes > 0 && offset <= end < |body|
    ensures var tree := body[offset..end];
            var p, h := ParseEntries(settings, tree), HookEntries(settings, body, offset, end);
            && (p.Some? <==> h.Some?)
            && (p.Some? ==> |p.value| == |h.value| && (p == h <==> !ShortTail(settings, tree)))
    decreases end - offset
  {
    hide EntryFrom, HookEntryFrom;
    var tree := body[offset..end];
    if offset < end {
      HookEntryAgrees(settings, body, offset, end);
      var first := EntryFrom(settings, tree, 0);
      if first.Some? {
        var next := first.value.next;
        assert tree[next..] == body[offset + next..end];
        HookEntriesAgree(settings, body, offset + next, end);
        if ShortHere(settings, first.value) {
          assert tree[next..] == [];
          assert HookEntries(settings, body, end + 1, end) == Some([]);
        }
        PrependHeads(first.value.entry, ParseEntries(settings, tree[next..]));
        var hook := HookEntryFrom(settings, body, offset, end).value;
        PrependHeads(hook.entry, HookEntries(settings, body, hook.next, end));
      }
    } else {
      assert tree == [];
    }
  }

  lemma PrependHeads<T>(x: T, r: Option<seq<T>>)
    ensures r.Some? ==> Prepend([x], r).value[0] == x && Prepend([x], r).value[1..] == r.value
  {}

  // ----- the whole stream

  /** One tree read at `start` of the remaining stream, its `size` already known. */
  function HookBody(settings: Settings, b: Batch, start: nat, oid: Oid, size: nat): Option<Batch> {
    var end := start + size;
    if end >= |b.buffer| || b.buffer[end] != NEWLINE then None
    else match HookEntries(settings, b.buffer, start, end)
      case None => None
      case Some(entries) =>
        if |entries| > settings.maximumTreeEntries then None
        else if b.materialized + |entries| > settings.maximumExpandedEntries then None
        else Some(Batch(b.trees[oid := entries], b.index + 1, b.materialized + |entries|, None, b.buffer[end + 1..]))
  }

  /** What the hook reads from the rest of the stream once `b.index` trees are read: it fails, or ends with the
      map. Its tests on a header line are those of the chunk-fed parser. */
  function HookBatch(settings: Settings, expected: seq<Oid>, b: Batch): Option<map<Oid, seq<TreeEntry>>>
    requires b.pending.None? && b.index <= |expected|
    decreases |expected| - b.index
  {
    if b.index == |expected| then if b.buffer == [] then Some(b.trees) else None
    else match ReadHeader(expected, b)
      case Waiting => None
      case Refused(_) => None
      case Moved(mid) =>
        var (oid, size) := mid.pending.value;
        match HookBody(settings, b, |b.buffer| - |mid.buffer|, oid, size)
        case None => None
        case Some(next) => HookBatch(settings, expected, next)
  }

  /** Every tree body read while draining ends with a whole object id. */
  predicate BodiesWhole(settings: Settings, expected: seq<Oid>, b: Batch)
    decreases |b.buffer|
  {
    var step := Advance(settings, expected, b);
    step.Moved? ==>
      && (b.pending.Some? && b.pending.value.1 <= |b.buffer| ==> !ShortTail(settings, b.buffer[..b.pending.value.1]))
      && BodiesWhole(settings, expected, step.next)
  }

  lemma Rejoin(buffer: Bytes, start: nat, size: nat)
    requires start + size < |buffer|
    ensures buffer[start..][size] == buffer[start + size]
    ensures buffer[start..][..size] == buffer[start..start + size]
    ensures buffer[start..][size + 1..] == buffer[start + size + 1..]
  {}

  /** Reading one body: both parsers succeed or neither does, and what is left is the same. */
  lemma BodiesAgree(settings: Settings, hook: Batch, mid: Batch, start: nat)
    requires settings.oidBytes > 0 && mid.pending.Some? && start <= |hook.buffer|
    requires hook.pending.None? && hook.index == mid.index && hook.materialized == mid.materialized
    requires mid.buffer == hook.buffer[start..]
    ensures var (oid, size) := mid.pending.value;
            var h, step := HookBody(settings, hook, start, oid, size), ReadBody(settings, mid);
            && (h.Some? <==> step.Moved?)
            && (h.Some? ==> h.value == step.next.(trees := h.value.trees))
            && (h.Some? && hook.trees == mid.trees && size <= |mid.buffer| ==>
                  !ShortTail(settings, mid.buffer[..size]) ==> h.value == step.next)
  {
    hide HookEntries, ParseEntries, ShortTail;
    var (oid, size) := mid.pending.value;
    var end := start + size;
    if end < |hook.buffer| {
      Rejoin(hook.buffer, start, size);
      HookEntriesAgree(settings, hook.buffer, start, end);
    }
  }

  /** The hook accepts exactly the streams that decode, and reads the same trees when no tree ends short. */
  lemma {:induction false} HookAgrees(settings: Settings, expected: seq<Oid>, hook: Batch, b: Batch)
    requires settings.oidBytes > 0 && b.pending.None? && b.index <= |expected|
    requires hook == b.(trees := hook.trees)
    ensures HookBatch(settings, expected, hook).Some? <==> Finished(expected, Drain(settings, expected, b)).Some?
    ensures HookBatch(settings, expected, hook).Some? && hook == b && BodiesWhole(settings, expected, b) ==>
              HookBatch(settings, expected, hook) == Finished(expected, Drain(settings, expected, b))
    decreases |expected| - b.index
  {
    hide HookBody, ReadBody, ReadHeader, ShortTail, BodiesWhole;
    HeadersAgree(expected, hook, b);
    var header := ReadHeader(expected, b);
    if b.index < |expected| && header.Moved? {
      var mid := header.next;
      var start := |b.buffer| - |mid.buffer|;
      BodiesAgree(settings, hook, mid, start);
      if ReadBody(settings, mid).Moved? {
        var next := ReadBody(settings, mid).next;
        var hookNext := HookBody(settings, hook, start, mid.pending.value.0, mid.pending.value.1).value;
        NextIndex(settings, mid);
        if BodiesWhole(settings, expected, b) {
          WholeTwice(settings, expected, b, mid, next);
        }
        HookAgrees(settings, expected, hookNext, next);
      }
    }
  }

  lemma WholeTwice(settings: Settings, expected: seq<Oid>, b: Batch, mid: Batch, next: Batch)
    requires Advance(settings, expected, b) == Moved(mid) && Advance(settings, expected, mid) == Moved(next)
    requires BodiesWhole(settings, expected, b) && mid.pending.Some? && mid.pending.value.1 <= |mid.buffer|
    ensures BodiesWhole(settings, expected, next) && !ShortTail(settings, mid.buffer[..mid.pending.value.1])
  {
    hide Advance, ShortTail;
    assert BodiesWhole(settings, expected, mid);
  }

  lemma NextIndex(settings: Settings, mid: Batch)
    requires mid.pending.Some? && ReadBody(settings, mid).Moved?
    ensures ReadBody(settings, mid).next.index == mid.index + 1 && ReadBody(settings, mid).next.pending.None?
    ensures mid.pending.value.1 <= |mid.buffer|
  {
    hide ParseEntries;
  }

  lemma HeadersAgree(expected: seq<Oid>, hook: Batch, b: Batch)
    requires b.pending.None? && hook == b.(trees := hook.trees)
    ensures var x, y := ReadHeader(expected, b), ReadHeader(expected, hook);
            && (x.Waiting? <==> y.Waiting?) && (x.Refused? <==> y.Refused?)
            && (x.Moved? ==>
                  && y.next == x.next.(trees := hook.trees) && x.next.trees == b.trees
                  && x.next.pending.Some? && x.next.index == b.index && x.next.materialized == b.materialized
                  && x.next.buffer == b.buffer[|b.buffer| - |x.next.buffer|..])
            && (b.index == |expected| ==> !x.Moved? && (b.buffer == [] ==> x.Waiting?))
  {
    hide ParseHeader, IndexOf;
  }

  /** Main result: the one-shot hook parser and the chunk-fed parser accept the same streams, and agree on the
      trees of every stream in which no tree body ends with a short object id. */
  lemma ParsersAgree(settings: Settings, expected: seq<Oid>, stream: Bytes)
    requires settings.oidBytes > 0
    ensures HookBatch(settings, expected, Start(stream)).Some? <==> Decode(settings, expected, stream).Some?
    ensures BodiesWhole(settings, expected, Start(stream)) && Decode(settings, expected, stream).Some? ==>
              HookBatch(settings, expected, Start(stream)) == Decode(settings, expected, stream)
  {
    HookAgrees(settings, expected, Start(stream), Start(stream));
  }

  // ----- the hook's loop, over absolute offsets

  /** Searching a suffix finds what searching the whole from there finds. */
  lemma OffsetIndex(body: Bytes, x: Byte, base: nat, from: nat)
    requires base <= |body|
    ensures var whole, part := IndexOf(body, x, base + from), IndexOf(body[base..], x, from);
            (whole < 0 <==> part < 0) && (whole >= 0 ==> part == whole - base)
  {
    hide IndexOf;
    assert body[base..] == body[base..|body|];
    WindowIndex(body, x, base, |body|, from);
  }

  lemma FieldsShift(settings: Settings, body: Bytes, base: nat, offset: nat, limit: nat)
    requires base <= |body|
    ensures FieldsFrom(settings, body, base + offset, base + limit)
            == match FieldsFrom(settings, body[base..], offset, limit)
               case None => None
               case Some(f) => Some(Fields(f.mode, f.name, base + f.nameEnd))
  {
    hide IndexOf, Ascii;
    var m := IndexOf(body[base..], BLANK, offset);
    OffsetIndex(body, BLANK, base, offset);
    if m > offset {
      OffsetIndex(body, ZERO, base, m + 1);
      var n := IndexOf(body[base..], ZERO, m + 1);
      if n > m {
        Suffix(body, base, m + 1, n);
        Suffix(body, base, offset, m);
      }
    }
  }

  lemma Suffix(body: Bytes, base: nat, i: nat, j: nat)
    requires base <= |body| && i <= j <= |body| - base
    ensures body[base..][i..j] == body[base + i..base + j]
  {
    assert body[base..] == body[base..|body|];
    Window(body, base, |body|, i, j);
  }

  lemma HookEntryShift(settings: Settings, body: Bytes, base: nat, offset: nat, end: nat)
    requires base <= |body| && offset < end && base + end < |body|
    ensures HookEntryFrom(settings, body, base + offset, base + end)
            == match HookEntryFrom(settings, body[base..], offset, end)
               case None => None
               case Some(p) => Some(Parsed(p.entry, base + p.next))
  {
    hide FieldsFrom, Hex;
    FieldsShift(settings, body, base, offset, end);
    var f := FieldsFrom(settings, body[base..], offset, end);
    if f.Some? {
      Suffix(body, base, f.value.nameEnd + 1, f.value.nameEnd + 1 + settings.oidBytes);
    }
  }

  lemma {:induction false} HookEntriesShift(settings: Settings, body: Bytes, base: nat, offset: nat, end: nat)
    requires base <= |body| && base + end < |body|
    ensures HookEntries(settings, body, base + offset, base + end) == HookEntries(settings, body[base..], offset, end)
    decreases end + 1 - offset
  {
    hide HookEntryFrom;
    if offset < end {
      HookEntryShift(settings, body, base, offset, end);
      var p := HookEntryFrom(settings, body[base..], offset, end);
      if p.Some? {
        HookEntriesShift(settings, body, base, p.value.next, end);
      }
    }
  }

  /** The entries of one tree, read in place. */
  method ParseEntriesInPlace(settings: Settings, body: Bytes, start: nat, end: nat) returns (r: Option<seq<TreeEntry>>)
    requires end < |body|
    ensures r == HookEntries(settings, body, start, end)
  {
    hide HookEntryFrom;
    var entries: seq<TreeEntry>, offset := [], start;
    PrependNothing(HookEntries(settings, body, start, end));
    while offset < end
      invariant HookEntries(settings, body, start, end) == Prepend(entries, HookEntries(settings, body, offset, end))
      decreases end + 1 - offset
    {
      var parsed := HookEntryFrom(settings, body, offset, end);
      if parsed.None? {
        return None;
      }
      PrependTwice(entries, parsed.value.entry, HookEntries(settings, body, parsed.value.next, end));
      entries, offset := entries + [parsed.value.entry], parsed.value.next;
    }
    assert entries + [] == entries;
    r := Some(entries);
  }

  lemma SuffixOfSuffix(body: Bytes, base: nat, i: nat)
    requires base <= i <= |body|
    ensures body[base..][i - base..] == body[i..]
  {}

  /** The header line at an absolute offset is the one the remaining stream starts with. */
  lemma HeaderAt(expected: seq<Oid>, body: Bytes, offset: nat, b: Batch)
    requires offset <= |body| && b.buffer == body[offset..] && b.pending.None? && b.index < |expected|
    ensures var headerEnd, step := IndexOf(body, NEWLINE, offset), ReadHeader(expected, b);
            if headerEnd < 0 then step.Waiting?
            else
              var header := ParseHeader(body[offset..headerEnd]);
              if header.None? || header.value.0 != expected[b.index] || header.value.1 != "tree"
                 || header.value.2 > MAX_SAFE_INTEGER
              then step.Refused?
              else step == Moved(b.(pending := Some((expected[b.index], header.value.2)), buffer := body[headerEnd + 1..]))
  {
    hide IndexOf, ParseHeader;
    OffsetIndex(body, NEWLINE, offset, 0);
    var headerEnd := IndexOf(body, NEWLINE, offset);
    if headerEnd >= 0 {
      Suffix(body, offset, 0, headerEnd - offset);
      SuffixOfSuffix(body, offset, headerEnd + 1);
      assert b.buffer[..headerEnd - offset] == b.buffer[0..headerEnd - offset];
    }
  }

  lemma BodyAt(settings: Settings, body: Bytes, offset: nat, b: Batch, start: nat, oid: Oid, size: nat)
    requires offset <= start <= |body| && b.buffer == body[offset..]
    ensures var end, next := start + size, HookBody(settings, b, start - offset, oid, size);
            if end >= |body| || body[end] != NEWLINE then next.None?
            else match HookEntries(settings, body, start, end)
                 case None => next.None?
                 case Some(entries) =>
                   if |entries| > settings.maximumTreeEntries
                      || b.materialized + |entries| > settings.maximumExpandedEntries
                   then next.None?
                   else next == Some(Batch(b.trees[oid := entries], b.index + 1, b.materialized + |entries|, None,
                                           body[end + 1..]))
  {
    hide HookEntries;
    var end := start + size;
    if end < |body| {
      HookEntriesShift(settings, body, offset, start - offset, end - offset);
      assert body[offset..][end - offset] == body[end];
      SuffixOfSuffix(body, offset, end + 1);
    }
  }

  method ParseTreeBatch(settings: Settings, expected: seq<Oid>, body: Bytes)
    returns (r: Option<map<Oid, seq<TreeEntry>>>)
    ensures r == HookBatch(settings, expected, Start(body))
  {
    hide ParseHeader, IndexOf, HookEntries, ReadHeader, HookBody;
    var result: map<Oid, seq<TreeEntry>>, offset: nat, materialized: nat := map[], 0, 0;
    assert body[0..] == body;
    for k := 0 to |expected|
      invariant offset <= |body|
      invariant HookBatch(settings, expected, Start(body))
                == HookBatch(settings, expected, Batch(result, k, materialized, None, body[offset..]))
    {
      ghost var b := Batch(result, k, materialized, None, body[offset..]);
      HeaderAt(expected, body, offset, b);
      var headerEnd := IndexOf(body, NEWLINE, offset);
      if headerEnd < 0 {
        return None;
      }
      var header := ParseHeader(body[offset..headerEnd]);
      if header.None? || header.value.0 != expected[k] || header.value.1 != "tree" || header.value.2 > MAX_SAFE_INTEGER {
        return None;
      }
      var start := headerEnd + 1;
      var end := start + header.value.2;
      BodyAt(settings, body, offset, b, start, expected[k], header.value.2);
      if end >= |body| || body[end] != NEWLINE {
        return None;
      }
      var entries := ParseEntriesInPlace(settings, body, start, end);
      if entries.None? || |entries.value| > settings.maximumTreeEntries {
        return None;
      }
      materialized := materialized + |entries.value|;
      if materialized > settings.maximumExpandedEntries {
        return None;
      }
      result := result[expected[k] := entries.value];
      offset := end + 1;
    }
    if offset != |body| {
      return None;
    }
    r := Some(result);
  }
}
