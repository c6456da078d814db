/** The canonical encoding of tree objects in a batch stream: parsing undoes it, and it stays small. */
module BatchEncoding {
  import opened Common
  import opened TreePolicy
  import opened TreeBatch
  import opened HookTreeBatch
  import AcceptListing

  datatype TreeObjectData = TreeObjectData(oid: Oid, entries: seq<TreeEntry>)

  ghost predicate Encodable(settings: Settings, encode: Text -> Bytes, e: TreeEntry) {
    && e.mode != [] && (forall i | 0 <= i < |e.mode| :: e.mode[i] as int < 128 && e.mode[i] != ' ')
    && ZERO !in encode(e.name) && settings.decode(encode(e.name)) == Some(e.name)
    && IsHex(e.oid) && |e.oid| == 2 * settings.oidBytes
  }

  function EncodeEntry(encode: Text -> Bytes, e: TreeEntry): Bytes {
    AsciiBytes(e.mode) + [BLANK] + (encode(e.name) + [ZERO] + Unhex(e.oid))
  }

  function EncodeEntries(encode: Text -> Bytes, entries: seq<TreeEntry>): Bytes {
    if entries == [] then [] else EncodeEntry(encode, entries[0]) + EncodeEntries(encode, entries[1..])
  }

  lemma IndexAfter(a: Bytes, x: Byte, b: Bytes)
    requires x !in a
    ensures IndexOf(a + [x] + b, x, 0) == |a|
    ensures (a + [x] + b)[..|a|] == a && (a + [x] + b)[|a| + 1..] == b
  {
    hide IndexOf;
    assert (a + [x] + b)[|a|] == x;
  }

  lemma PlainMode(mode: string)
    requires forall i | 0 <= i < |mode| :: mode[i] as int < 128 && mode[i] != ' '
    ensures BLANK !in AsciiBytes(mode) && Ascii(AsciiBytes(mode)) == mode
  {}

  /** Where the separators and parts of an encoded entry lie. */
  lemma EntryShape(mode: Bytes, name: Bytes, after: Bytes)
    requires BLANK !in mode && ZERO !in name
    ensures var body := mode + [BLANK] + (name + [ZERO] + after);
            var m, n := |mode|, |mode| + 1 + |name|;
            && IndexOf(body, BLANK, 0) == m && IndexOf(body, ZERO, m + 1) == n
            && body[0..m] == mode && body[m + 1..n] == name && body[n + 1..] == after
            && |body| == n + 1 + |after|
  {
    hide IndexOf;
    var tail := name + [ZERO] + after;
    var body := mode + [BLANK] + tail;
    IndexAfter(mode, BLANK, tail);
    IndexAfter(name, ZERO, after);
    SuffixIndex(body, ZERO, |mode| + 1);
    assert body[|mode| + 1..|mode| + 1 + |name|] == tail[..|name|];
    assert body[|mode| + 1 + |name| + 1..] == tail[|name| + 1..];
  }

  /** The first entry of a body that starts with an encoded entry is that entry. */
  lemma EntryRoundTrip(settings: Settings, encode: Text -> Bytes, e: TreeEntry, rest: Bytes)
    requires settings.oidBytes > 0 && Encodable(settings, encode, e)
    ensures EntryFrom(settings, EncodeEntry(encode, e) + rest, 0) == Some(Parsed(e, |EncodeEntry(encode, e)|))
    ensures (EncodeEntry(encode, e) + rest)[|EncodeEntry(encode, e)|..] == rest
  {
    hide IndexOf, Ascii, AsciiBytes, Hex, Unhex;
    var mode, name, id := AsciiBytes(e.mode), encode(e.name), Unhex(e.oid);
    assert EncodeEntry(encode, e) + rest == mode + [BLANK] + (name + [ZERO] + (id + rest));
    PlainMode(e.mode);
    EntryShape(mode, name, id + rest);
    HexOfUnhex(e.oid);
    IdSlice(EncodeEntry(encode, e) + rest, |mode| + 1 + |name| + 1, id, rest);
  }

  lemma IdSlice(body: Bytes, start: nat, id: Bytes, rest: Bytes)
    requires start <= |body| && body[start..] == id + rest
    ensures body[start..start + |id|] == id
  {
    assert body[start..start + |id|] == body[start..][..|id|];
  }

  lemma SuffixIndex(body: Bytes, x: Byte, base: nat)
    requires base <= |body|
    ensures var part := IndexOf(body[base..], x, 0); part >= 0 ==> IndexOf(body, x, base) == base + part
  {
    hide IndexOf;
    assert body[base..] == body[base..|body|];
    WindowIndex(body, x, base, |body|, 0);
  }

  lemma {:induction false} EntriesRoundTrip(settings: Settings, encode: Text -> Bytes, entries: seq<TreeEntry>)
    requires settings.oidBytes > 0
    requires forall i | 0 <= i < |entries| :: Encodable(settings, encode, entries[i])
    ensures ParseEntries(settings, EncodeEntries(encode, entries)) == Some(entries)
    ensures !ShortTail(settings, EncodeEntries(encode, entries))
    decreases |entries|
  {
    hide EntryFrom, EncodeEntry;
    if entries != [] {
      var e, rest := entries[0], EncodeEntries(encode, entries[1..]);
      EntryRoundTrip(settings, encode, e, rest);
      EntriesRoundTrip(settings, encode, entries[1..]);
      assert EncodeEntries(encode, entries) == EncodeEntry(encode, e) + rest;
      assert entries == [e] + entries[1..];
    }
  }

  // ----- one object with its header line

  function HeaderText(oid: Oid, size: nat): string { oid + [' '] + ("tree" + [' '] + Decimal(size)) }

  function EncodeTree(encode: Text -> Bytes, t: TreeObjectData): Bytes {
    var body := EncodeEntries(encode, t.entries);
    AsciiBytes(HeaderText(t.oid, |body|)) + [NEWLINE] + (body + [NEWLINE])
  }

  lemma HeaderRoundTrip(oid: Oid, size: nat)
    requires IsHex(oid) && (|oid| == 40 || |oid| == 64)
    ensures ParseHeader(AsciiBytes(HeaderText(oid, size))) == Some((oid, "tree", size))
    ensures NEWLINE !in AsciiBytes(HeaderText(oid, size))
    ensures |AsciiBytes(HeaderText(oid, size))| == |oid| + 6 + |Decimal(size)|
  {
    var digits := Decimal(size);
    HexPlain(oid);
    DigitsPlain(digits);
    HeaderPlain(oid, digits);
    PlainAscii(HeaderText(oid, size));
    HeaderSplit(oid, digits);
    ValueOfDecimal(size);
    hide Split, Decimal, Ascii, AsciiBytes, Printing, Value;
  }

  lemma HeaderSplit(oid: string, digits: string)
    requires ' ' !in oid && ' ' !in digits
    ensures Split(oid + [' '] + ("tree" + [' '] + digits), ' ') == [oid, "tree", digits]
  {
    hide IndexOf;
    SplitFirst(oid, ' ', "tree" + [' '] + digits);
    SplitFirst("tree", ' ', digits);
    SplitUnfold(digits, ' ');
  }

  predicate Printing(s: string) { forall i | 0 <= i < |s| :: ' ' as int <= s[i] as int < 128 }

  lemma HexPlain(s: string)
    requires IsHex(s)
    ensures Printing(s) && ' ' !in s
  {
    forall i | 0 <= i < |s| ensures ' ' as int < s[i] as int < 128 { assert HexDigit(s[i]); }
  }

  lemma DigitsPlain(s: string)
    requires IsDecimal(s)
    ensures Printing(s) && ' ' !in s
  {
    forall i | 0 <= i < |s| ensures ' ' as int < s[i] as int < 128 { assert IsDigit(s[i]); }
  }

  lemma HeaderPlain(oid: string, digits: string)
    requires Printing(oid) && Printing(digits)
    ensures Printing(oid + [' '] + ("tree" + [' '] + digits))
  {
    assert Printing("tree" + [' '] + digits);
  }

  lemma PlainAscii(s: string)
    requires Printing(s)
    ensures Ascii(AsciiBytes(s)) == s && NEWLINE !in AsciiBytes(s)
  {}

  // ----- the whole stream

  function EncodeBatch(encode: Text -> Bytes, objects: seq<TreeObjectData>): Bytes {
    if objects == [] then [] else EncodeTree(encode, objects[0]) + EncodeBatch(encode, objects[1..])
  }

  function OidsOf(objects: seq<TreeObjectData>): (oids: seq<Oid>)
    ensures |oids| == |objects|
  {
    seq(|objects|, i requires 0 <= i < |objects| => objects[i].oid)
  }

  /** The map a reader builds, later objects overriding earlier ones of the same name. */
  function Collected(trees: map<Oid, seq<TreeEntry>>, objects: seq<TreeObjectData>): map<Oid, seq<TreeEntry>>
    decreases |objects|
  {
    if objects == [] then trees else Collected(trees[objects[0].oid := objects[0].entries], objects[1..])
  }

  function TotalEntries(objects: seq<TreeObjectData>): nat {
    if objects == [] then 0 else |objects[0].entries| + TotalEntries(objects[1..])
  }

  ghost predicate EncodableObject(settings: Settings, encode: Text -> Bytes, t: TreeObjectData) {
    && IsHex(t.oid) && (|t.oid| == 40 || |t.oid| == 64)
    && (forall i | 0 <= i < |t.entries| :: Encodable(settings, encode, t.entries[i]))
    && |t.entries| <= settings.maximumTreeEntries
    && |EncodeEntries(encode, t.entries)| <= MAX_SAFE_INTEGER
  }

  lemma PowerOfSize(n: nat)
    requires n <= MAX_SAFE_INTEGER
    ensures |Decimal(n)| <= 16
  {
    assert Power10(4) == 10_000;
    assert Power10(8) == 100_000_000 by { assert Power10(6) == 1_000_000; }
    assert Power10(12) == 1_000_000_000_000 by { assert Power10(10) == 10_000_000_000; }
    assert Power10(16) == 10_000_000_000_000_000 by { assert Power10(14) == 100_000_000_000_000; }
    DecimalLength(n, 16);
  }

  /** The header of an encoded object is read, and is short. */
  lemma HeaderStep(settings: Settings, encode: Text -> Bytes, expected: seq<Oid>, t: TreeObjectData, b: Batch, rest: Bytes)
    requires EncodableObject(settings, encode, t)
    requires b.pending.None? && b.index < |expected| && expected[b.index] == t.oid
    requires b.buffer == EncodeTree(encode, t) + rest
    ensures var body := EncodeEntries(encode, t.entries);
            && ReadHeader(expected, b) == Moved(b.(pending := Some((t.oid, |body|)), buffer := body + [NEWLINE] + rest))
            && HeaderHere(b) == [AsciiBytes(HeaderText(t.oid, |body|))]
            && |HeaderHere(b)[0]| <= MAX_HEADER
  {
    hide ParseHeader, IndexOf, EncodeEntries, HeaderText, Decimal, AsciiBytes, Encodable;
    var body := EncodeEntries(encode, t.entries);
    var line := AsciiBytes(HeaderText(t.oid, |body|));
    HeaderRoundTrip(t.oid, |body|);
    PowerOfSize(|body|);
    assert b.buffer == line + [NEWLINE] + (body + [NEWLINE] + rest);
    IndexAfter(line, NEWLINE, body + [NEWLINE] + rest);
  }

  lemma BodyStep(settings: Settings, encode: Text -> Bytes, t: TreeObjectData, b: Batch, rest: Bytes)
    requires settings.oidBytes > 0 && EncodableObject(settings, encode, t)
    requires b.materialized + |t.entries| <= settings.maximumExpandedEntries
    requires var body := EncodeEntries(encode, t.entries);
             b.pending == Some((t.oid, |body|)) && b.buffer == body + [NEWLINE] + rest
    ensures ReadBody(settings, b)
            == Moved(Batch(b.trees[t.oid := t.entries], b.index + 1, b.materialized + |t.entries|, None, rest))
    ensures !ShortTail(settings, b.buffer[..|EncodeEntries(encode, t.entries)|])
  {
    hide ParseEntries, EncodeEntries, ShortTail, Encodable;
    var body := EncodeEntries(encode, t.entries);
    EntriesRoundTrip(settings, encode, t.entries);
    assert b.buffer[|body|] == NEWLINE;
    assert b.buffer[..|body|] == body;
    assert b.buffer[|body| + 1..] == rest;
  }

  /** One object takes the reader two steps further. */
  lemma ObjectRoundTrip(settings: Settings, encode: Text -> Bytes, expected: seq<Oid>, t: TreeObjectData, b: Batch,
                        rest: Bytes) returns (next: Batch)
    requires settings.oidBytes > 0 && EncodableObject(settings, encode, t)
    requires b.pending.None? && b.index < |expected| && expected[b.index] == t.oid
    requires b.buffer == EncodeTree(encode, t) + rest
    requires b.materialized + |t.entries| <= settings.maximumExpandedEntries
    ensures next == Batch(b.trees[t.oid := t.entries], b.index + 1, b.materialized + |t.entries|, None, rest)
    ensures Drain(settings, expected, b) == Drain(settings, expected, next)
    ensures HeadersShort(settings, expected, next) ==> HeadersShort(settings, expected, b)
    ensures BodiesWhole(settings, expected, next) ==> BodiesWhole(settings, expected, b)
  {
    hide ReadHeader, ReadBody, EncodableObject, EncodeTree, EncodeEntries, ShortTail, HeaderText;
    HeaderStep(settings, encode, expected, t, b, rest);
    var body := EncodeEntries(encode, t.entries);
    var mid := b.(pending := Some((t.oid, |body|)), buffer := body + [NEWLINE] + rest);
    BodyStep(settings, encode, t, mid, rest);
    next := Batch(b.trees[t.oid := t.entries], b.index + 1, b.materialized + |t.entries|, None, rest);
    assert Advance(settings, expected, b) == Moved(mid) && Advance(settings, expected, mid) == Moved(next);
    assert HeaderHere(mid) == [];
    TwoHeaders(settings, expected, b, mid, next);
  }

  lemma TwoHeaders(settings: Settings, expected: seq<Oid>, b: Batch, mid: Batch, next: Batch)
    requires Advance(settings, expected, b) == Moved(mid) && Advance(settings, expected, mid) == Moved(next)
    ensures HeaderLines(settings, expected, b)
            == HeaderHere(b) + (HeaderHere(mid) + HeaderLines(settings, expected, next))
    ensures Drain(settings, expected, b) == Drain(settings, expected, next)
  {
    hide Advance, HeaderHere;
    assert Drain(settings, expected, mid) == Drain(settings, expected, next);
    assert HeaderLines(settings, expected, mid) == HeaderHere(mid) + HeaderLines(settings, expected, next);
  }

  /** Main result: reading an encoded batch yields exactly the trees encoded. */
  lemma {:induction false} BatchRoundTrip(settings: Settings, encode: Text -> Bytes, expected: seq<Oid>,
                                          objects: seq<TreeObjectData>, b: Batch)
    requires settings.oidBytes > 0
    requires forall i | 0 <= i < |objects| :: EncodableObject(settings, encode, objects[i])
    requires b.pending.None? && b.index + |objects| == |expected|
    requires forall i | 0 <= i < |objects| :: expected[b.index + i] == objects[i].oid
    requires b.buffer == EncodeBatch(encode, objects)
    requires b.materialized + TotalEntries(objects) <= settings.maximumExpandedEntries
    ensures Finished(expected, Drain(settings, expected, b)) == Some(Collected(b.trees, objects))
    ensures HeadersShort(settings, expected, b) && BodiesWhole(settings, expected, b)
    decreases |objects|
  {
    hide Drain, HeaderLines, HeadersShort, BodiesWhole, EncodableObject, EncodeTree;
    if objects == [] {
      NothingLeft(settings, expected, b);
    } else {
      var next := ObjectRoundTrip(settings, encode, expected, objects[0], b, EncodeBatch(encode, objects[1..]));
      forall i | 0 <= i < |objects[1..]|
        ensures expected[next.index + i] == objects[1..][i].oid
      {
        assert objects[1..][i] == objects[i + 1];
        assert expected[b.index + (i + 1)] == objects[i + 1].oid;
      }
      BatchRoundTrip(settings, encode, expected, objects[1..], next);
    }
  }

  lemma NothingLeft(settings: Settings, expected: seq<Oid>, b: Batch)
    requires b.pending.None? && b.buffer == [] && b.index == |expected|
    ensures Drain(settings, expected, b) == Ready(b) && HeaderLines(settings, expected, b) == []
    ensures HeadersShort(settings, expected, b) && BodiesWhole(settings, expected, b)
  {
    assert Advance(settings, expected, b).Waiting?;
  }

  ghost predicate EncodableBatch(settings: Settings, encode: Text -> Bytes, objects: seq<TreeObjectData>) {
    && settings.oidBytes > 0
    && (forall i | 0 <= i < |objects| :: EncodableObject(settings, encode, objects[i]))
    && TotalEntries(objects) <= settings.maximumExpandedEntries
  }

  /** However the encoded stream is cut, the chunk-fed parser returns exactly the trees encoded, and so does
      the hook's one-shot parser. */
  lemma EncodedBatchRead(settings: Settings, encode: Text -> Bytes, objects: seq<TreeObjectData>, chunks: seq<Bytes>)
    requires EncodableBatch(settings, encode, objects)
    requires AcceptListing.Concat(chunks) == EncodeBatch(encode, objects)
    ensures Streamed(settings, OidsOf(objects), chunks) == Some(Collected(map[], objects))
    ensures HookBatch(settings, OidsOf(objects), Start(EncodeBatch(encode, objects))) == Some(Collected(map[], objects))
  {
    hide Drain, HeaderLines, HeadersShort, BodiesWhole, EncodableObject, EncodeBatch, StreamsClean;
    var stream, expected := EncodeBatch(encode, objects), OidsOf(objects);
    BatchRoundTrip(settings, encode, expected, objects, Start(stream));
    ChunkIndependence(settings, expected, stream);
    ParsersAgree(settings, expected, stream);
  }

  // ----- the stream cap

  const ENTRY_BYTES := 400
  const WRAPPER_BYTES := 82

  /** `maximumTreeBatchOutputBytes`. */
  function MaximumOutputBytes(expandedEntries: nat): nat {
    expandedEntries * ENTRY_BYTES + (expandedEntries + 1) * WRAPPER_BYTES
  }

  /** A mode of at most six characters, a portable name of at most 120 units (three UTF-8 bytes each) and an
      object id of at most 32 bytes. */
  ghost predicate PortableSizes(settings: Settings, encode: Text -> Bytes, e: TreeEntry) {
    |e.mode| <= 6 && |encode(e.name)| <= 3 * |e.name| && |e.name| <= MAX_SEGMENT_UTF16 && |e.oid| <= 64
  }

  lemma {:induction false} EntriesBound(settings: Settings, encode: Text -> Bytes, entries: seq<TreeEntry>)
    requires forall i | 0 <= i < |entries| :: PortableSizes(settings, encode, entries[i])
    ensures |EncodeEntries(encode, entries)| <= ENTRY_BYTES * |entries|
    decreases |entries|
  {
    if entries != [] {
      EntriesBound(settings, encode, entries[1..]);
      assert PortableSizes(settings, encode, entries[0]);
    }
  }

  lemma TreeBound(settings: Settings, encode: Text -> Bytes, t: TreeObjectData)
    requires forall i | 0 <= i < |t.entries| :: PortableSizes(settings, encode, t.entries[i])
    requires |t.oid| <= 64 && |t.entries| <= 100_000
    ensures |EncodeTree(encode, t)| <= ENTRY_BYTES * |t.entries| + WRAPPER_BYTES
  {
    EntriesBound(settings, encode, t.entries);
    assert Power10(8) == 100_000_000 by { assert Power10(4) == 10_000; }
    var size := |EncodeEntries(encode, t.entries)|;
    DecimalLength(size, 8);
    assert |HeaderText(t.oid, size)| == |t.oid| + 6 + |Decimal(size)|;
  }

  lemma {:induction false} BatchBound(settings: Settings, encode: Text -> Bytes, objects: seq<TreeObjectData>)
    requires forall k | 0 <= k < |objects| :: |objects[k].oid| <= 64 && |objects[k].entries| <= 100_000
               && forall i | 0 <= i < |objects[k].entries| :: PortableSizes(settings, encode, objects[k].entries[i])
    ensures |EncodeBatch(encode, objects)| <= ENTRY_BYTES * TotalEntries(objects) + WRAPPER_BYTES * |objects|
    decreases |objects|
  {
    hide EncodeTree, PortableSizes;
    if objects != [] {
      TreeBound(settings, encode, objects[0]);
      BatchBound(settings, encode, objects[1..]);
    }
  }

  lemma {:induction false} CountBound(objects: seq<TreeObjectData>, empties: nat)
    requires |Empties(objects)| <= empties
    ensures |objects| <= TotalEntries(objects) + empties
    decreases |objects|
  {
    if objects != [] {
      if objects[0].entries == [] {
        CountBound(objects[1..], |Empties(objects[1..])|);
      } else {
        CountBound(objects[1..], empties);
      }
    }
  }

  function Empties(objects: seq<TreeObjectData>): seq<TreeObjectData> {
    if objects == [] then []
    else (if objects[0].entries == [] then [objects[0]] else []) + Empties(objects[1..])
  }

  /** The output cap never rejects what the policy accepts: at most one tree object is empty, since equal
      contents share an object id. */
  lemma CapNeverRejects(settings: Settings, encode: Text -> Bytes, objects: seq<TreeObjectData>, budget: nat)
    requires forall k | 0 <= k < |objects| :: |objects[k].oid| <= 64
               && forall i | 0 <= i < |objects[k].entries| :: PortableSizes(settings, encode, objects[k].entries[i])
    requires TotalEntries(objects) <= budget <= 100_000 && |Empties(objects)| <= 1
    ensures |EncodeBatch(encode, objects)| <= MaximumOutputBytes(budget)
  {
    hide PortableSizes;
    forall k | 0 <= k < |objects| ensures |objects[k].entries| <= TotalEntries(objects) {
      EntriesCounted(objects, k);
    }
    BatchBound(settings, encode, objects);
    CountBound(objects, 1);
  }

  lemma {:induction false} EntriesCounted(objects: seq<TreeObjectData>, k: nat)
    requires k < |objects|
    ensures |objects[k].entries| <= TotalEntries(objects)
    decreases k
  {
    if k > 0 {
      EntriesCounted(objects[1..], k - 1);
    }
  }
}
