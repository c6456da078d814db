/** The `cat-file --batch` stream of tree objects: the chunk-fed parser, the hook's one-shot parser,
    and what they agree on. */
module TreeBatch {
  import opened Common
  import opened TreePolicy
  import AcceptListing

  const NEWLINE: Byte := 0x0a
  const BLANK: Byte := 0x20
  const ZERO: Byte := 0x00
  const MAX_HEADER := 128
  const MAX_SAFE_INTEGER := 0x1f_ffff_ffff_ffff

  /** `decode` is the fatal UTF-8 decoder: None where it throws. */
  datatype Settings = Settings(oidBytes: nat, maximumTreeEntries: nat, maximumExpandedEntries: nat,
                               decode: Bytes -> Option<Text>)

  // ----- hexadecimal and decimal

  function HexChar(d: nat): char
    requires d < 16
  {
    if d < 10 then '0' + d as char else 'a' + (d - 10) as char
  }

  function HexValue(c: char): nat
    ensures HexValue(c) < 16
  {
    if '0' <= c <= '9' then c as int - '0' as int else if 'a' <= c <= 'f' then c as int - 'a' as int + 10 else 0
  }

  function Hex(b: Bytes): (s: string)
    ensures |s| == 2 * |b|
  {
    if b == [] then [] else [HexChar(b[0] / 16), HexChar(b[0] % 16)] + Hex(b[1..])
  }

  predicate IsHex(s: string) { forall i | 0 <= i < |s| :: HexDigit(s[i]) }

  function Unhex(s: string): (b: Bytes)
    ensures |b| == |s| / 2
  {
    if |s| < 2 then [] else [HexValue(s[0]) * 16 + HexValue(s[1])] + Unhex(s[2..])
  }

  lemma {:induction false} HexOfUnhex(s: string)
    requires IsHex(s) && |s| % 2 == 0
    ensures Hex(Unhex(s)) == s
    decreases |s|
  {
    if s != [] {
      HexOfUnhex(s[2..]);
      assert Unhex(s)[1..] == Unhex(s[2..]);
      assert s == [s[0], s[1]] + s[2..];
    }
  }

  predicate IsDigit(c: char) { '0' <= c <= '9' }

  predicate IsDecimal(s: string) { s != [] && forall i | 0 <= i < |s| :: IsDigit(s[i]) }

  function Value(s: string): nat
    requires forall i | 0 <= i < |s| :: IsDigit(s[i])
  {
    if s == [] then 0
    else
      assert IsDigit(s[|s| - 1]);
      10 * Value(s[..|s| - 1]) + (s[|s| - 1] as int - '0' as int)
  }

  function Decimal(n: nat): (s: string)
    ensures IsDecimal(s)
  {
    if n < 10 then ['0' + n as char] else Decimal(n / 10) + ['0' + (n % 10) as char]
  }

  lemma {:induction false} ValueOfDecimal(n: nat)
    ensures Value(Decimal(n)) == n
  {
    var s := Decimal(n);
    if n >= 10 {
      ValueOfDecimal(n / 10);
      assert s[..|s| - 1] == Decimal(n / 10);
    } else {
      assert s[..|s| - 1] == [];
    }
  }

  function Power10(k: nat): nat { if k == 0 then 1 else 10 * Power10(k - 1) }

  lemma {:induction false} DecimalLength(n: nat, k: nat)
    requires 0 < k && n < Power10(k)
    ensures |Decimal(n)| <= k
    decreases k
  {
    if n >= 10 {
      DecimalLength(n / 10, k - 1);
    }
  }

  // ----- one tree object

  function Min(a: int, b: int): int { if a <= b then a else b }

  datatype Parsed = Parsed(entry: TreeEntry, next: nat)

  datatype Fields = Fields(mode: string, name: Text, nameEnd: nat)

  /** The mode and name of the entry that starts at `offset`, with an object id ending by `limit` or, as the
      source's test has it, one byte after. */
  function FieldsFrom(settings: Settings, body: Bytes, offset: nat, limit: nat): (r: Option<Fields>)
    ensures r.Some? ==> offset < r.value.nameEnd < |body| && r.value.nameEnd + settings.oidBytes <= limit
  {
    var modeEnd := IndexOf(body, BLANK, offset);
    var nameEnd := IndexOf(body, ZERO, modeEnd + 1);
    if modeEnd <= offset || nameEnd <= modeEnd || nameEnd + settings.oidBytes > limit then None
    else match settings.decode(body[modeEnd + 1..nameEnd])
      case None => None
      case Some(name) => Some(Fields(Ascii(body[offset..modeEnd]), name, nameEnd))
  }

  /** The entry that starts at `offset`, and where the one after it starts. An object id one byte short is
      accepted at the very end of the body. */
  function EntryFrom(settings: Settings, body: Bytes, offset: nat): (r: Option<Parsed>)
    ensures r.Some? ==> offset < r.value.next <= |body|
  {
    match FieldsFrom(settings, body, offset, |body|)
    case None => None
    case Some(f) =>
      var next := Min(f.nameEnd + 1 + settings.oidBytes, |body|);
      Some(Parsed(TreeEntry(f.mode, f.name, Hex(body[f.nameEnd + 1..next])), next))
  }

  /** The entries of a whole tree body. */
  function ParseEntries(settings: Settings, body: Bytes): Option<seq<TreeEntry>>
    decreases |body|
  {
    if body == [] then Some([])
    else match EntryFrom(settings, body, 0)
      case None => None
      case Some(first) =>
        match ParseEntries(settings, body[first.next..])
        case None => None
        case Some(rest) => Some([first.entry] + rest)
  }

  /** The loop of `parseTree`, over absolute offsets. */
  method ParseTree(settings: Settings, body: Bytes) returns (r: Option<seq<TreeEntry>>)
    requires settings.oidBytes > 0
    ensures r == ParseEntries(settings, body)
  {
    hide EntryFrom;
    var entries: seq<TreeEntry>, offset := [], 0;
    assert body[0..] == body;
    PrependNothing(ParseEntries(settings, body));
    while offset < |body|
      invariant offset <= |body|
      invariant ParseEntries(settings, body) == Prepend(entries, ParseEntries(settings, body[offset..]))
    {
      var parsed := EntryFrom(settings, body, offset);
      OffsetEntry(settings, body, offset);
      if parsed.None? {
        return None;
      }
      ghost var rest := ParseEntries(settings, body[parsed.value.next..]);
      assert body[offset..][parsed.value.next - offset..] == body[parsed.value.next..];
      PrependTwice(entries, parsed.value.entry, rest);
      entries, offset := entries + [parsed.value.entry], parsed.value.next;
    }
    assert body[offset..] == [];
    assert entries + [] == entries;
    r := Some(entries);
  }

  function Prepend<T>(front: seq<T>, r: Option<seq<T>>): Option<seq<T>> {
    if r.None? then None else Some(front + r.value)
  }

  lemma PrependNothing<T>(r: Option<seq<T>>)
    ensures Prepend([], r) == r
  {
    assert r.Some? ==> [] + r.value == r.value;
  }

  lemma PrependTwice<T>(front: seq<T>, x: T, r: Option<seq<T>>)
    ensures Prepend(front, Prepend([x], r)) == Prepend(front + [x], r)
    ensures r.Some? ==> Prepend([x], r) == Some([x] + r.value)
  {
    if r.Some? {
      assert front + ([x] + r.value) == (front + [x]) + r.value;
    }
  }

  /** Reading an entry at an offset is reading the first entry of the suffix. */
  lemma OffsetEntry(settings: Settings, body: Bytes, offset: nat)
    requires settings.oidBytes > 0 && offset < |body|
    ensures EntryFrom(settings, body, offset)
            == match EntryFrom(settings, body[offset..], 0)
               case None => None
               case Some(p) => Some(Parsed(p.entry, offset + p.next))
  {
    hide FieldsFrom, Hex;
    assert body[offset..] == body[offset..|body|];
    FieldsInWindow(settings, body, offset, |body|);
    var f := FieldsFrom(settings, body, offset, |body|);
    if f.Some? {
      var next := Min(f.value.nameEnd + 1 + settings.oidBytes, |body|);
      Window(body, offset, |body|, f.value.nameEnd + 1 - offset, next - offset);
    }
  }

  /** An entry read inside a window of the stream has the fields it has in the whole. */
  lemma FieldsInWindow(settings: Settings, body: Bytes, offset: nat, end: nat)
    requires settings.oidBytes > 0 && offset < end <= |body|
    ensures FieldsFrom(settings, body, offset, end)
            == match FieldsFrom(settings, body[offset..end], 0, end - offset)
               case None => None
               case Some(f) => Some(Fields(f.mode, f.name, offset + f.nameEnd))
  {
    hide IndexOf, Ascii;
    var part := body[offset..end];
    var modeEnd, m := IndexOf(body, BLANK, offset), IndexOf(part, BLANK, 0);
    WindowIndex(body, BLANK, offset, end, 0);
    if m > 0 {
      assert modeEnd == offset + m;
      WindowIndex(body, ZERO, offset, end, m + 1);
      var nameEnd, n := IndexOf(body, ZERO, modeEnd + 1), IndexOf(part, ZERO, m + 1);
      if n > m && n + settings.oidBytes <= |part| {
        Window(body, offset, end, m + 1, n);
        Window(body, offset, end, 0, m);
      }
    }
  }

  lemma Window(body: Bytes, offset: nat, end: nat, i: nat, j: nat)
    requires offset <= end <= |body| && i <= j <= end - offset
    ensures body[offset..end][i..j] == body[offset + i..offset + j]
  {
    var a, b := body[offset..end][i..j], body[offset + i..offset + j];
    assert |a| == |b| == j - i;
    forall k | 0 <= k < j - i ensures a[k] == b[k] {
      assert a[k] == body[offset..end][i + k] == body[offset + (i + k)];
      assert b[k] == body[(offset + i) + k];
    }
  }

  /** Searching a window finds what searching the whole finds, as long as that lies in the window. */
  lemma WindowIndex(body: Bytes, x: Byte, offset: nat, end: nat, from: nat)
    requires offset <= end <= |body|
    ensures var whole, part := IndexOf(body, x, offset + from), IndexOf(body[offset..end], x, from);
            (part >= 0 <==> 0 <= whole < end) && (part >= 0 ==> whole == offset + part)
  {
    hide IndexOf;
    var whole, part := IndexOf(body, x, offset + from), IndexOf(body[offset..end], x, from);
    if 0 <= whole < end {
      assert body[offset..end][whole - offset] == x;
    }
    if part >= 0 {
      assert body[offset + part] == x;
    }
  }

  // ----- the parser's state and one step of its loop

  datatype Batch = Batch(trees: map<Oid, seq<TreeEntry>>, index: nat, materialized: nat,
                         pending: Option<(Oid, nat)>, buffer: Bytes)

  function Start(buffer: Bytes): Batch { Batch(map[], 0, 0, None, buffer) }

  /** `<40 or 64 hex digits> <lower-case word> <digits>`: the object id, the type and the size. */
  function ParseHeader(line: Bytes): Option<(Oid, string, nat)> {
    var pieces := Split(Ascii(line), ' ');
    if |pieces| == 3 && IsHex(pieces[0]) && (|pieces[0]| == 40 || |pieces[0]| == 64)
       && pieces[1] != [] && (forall i | 0 <= i < |pieces[1]| :: 'a' <= pieces[1][i] <= 'z')
       && IsDecimal(pieces[2])
    then Some((pieces[0], pieces[1], Value(pieces[2])))
    else None
  }

  datatype Step = Waiting | Moved(next: Batch) | Refused(code: Code)

  function ReadHeader(expected: seq<Oid>, b: Batch): (step: Step)
    requires b.pending.None?
    ensures step.Moved? ==> |step.next.buffer| < |b.buffer|
  {
    var headerEnd := IndexOf(b.buffer, NEWLINE, 0);
    if headerEnd < 0 then Waiting
    else
      var header := ParseHeader(b.buffer[..headerEnd]);
      if b.index >= |expected| || header.None? || header.value.0 != expected[b.index]
         || header.value.1 != "tree" || header.value.2 > MAX_SAFE_INTEGER
      then Refused(Invalid)
      else Moved(b.(pending := Some((expected[b.index], header.value.2)), buffer := b.buffer[headerEnd + 1..]))
  }

  function ReadBody(settings: Settings, b: Batch): (step: Step)
    requires b.pending.Some?
    ensures step.Moved? ==> |step.next.buffer| < |b.buffer|
  {
    var (oid, size) := b.pending.value;
    if |b.buffer| <= size then Waiting
    else if b.buffer[size] != NEWLINE then Refused(Invalid)
    else match ParseEntries(settings, b.buffer[..size])
      case None => Refused(Invalid)
      case Some(entries) =>
        if |entries| > settings.maximumTreeEntries then Refused(Limit)
        else if b.materialized + |entries| > settings.maximumExpandedEntries then Refused(Limit)
        else Moved(Batch(b.trees[oid := entries], b.index + 1, b.materialized + |entries|, None, b.buffer[size + 1..]))
  }

  function Advance(settings: Settings, expected: seq<Oid>, b: Batch): (step: Step)
    ensures step.Moved? ==> |step.next.buffer| < |b.buffer|
  {
    if b.pending.None? then ReadHeader(expected, b) else ReadBody(settings, b)
  }

  datatype Drained = Ready(batch: Batch) | Stopped(code: Code)

  /** Everything the buffered bytes determine. */
  function Drain(settings: Settings, expected: seq<Oid>, b: Batch): Drained
    decreases |b.buffer|
  {
    match Advance(settings, expected, b)
    case Waiting => Ready(b)
    case Refused(code) => Stopped(code)
    case Moved(next) => Drain(settings, expected, next)
  }

  function More(b: Batch, bytes: Bytes): Batch { b.(buffer := b.buffer + bytes) }

  /** A step already possible is not changed by bytes that arrive behind it. */
  lemma AdvanceFed(settings: Settings, expected: seq<Oid>, b: Batch, bytes: Bytes)
    ensures var step := Advance(settings, expected, b);
            && (step.Moved? ==> Advance(settings, expected, More(b, bytes)) == Moved(More(step.next, bytes)))
            && (step.Refused? ==> Advance(settings, expected, More(b, bytes)) == step)
  {
    if b.pending.None? {
      HeaderFed(expected, b, bytes);
    } else {
      BodyFed(settings, b, bytes);
    }
  }

  lemma HeaderFed(expected: seq<Oid>, b: Batch, bytes: Bytes)
    requires b.pending.None?
    ensures var step := ReadHeader(expected, b);
            && (step.Moved? ==> ReadHeader(expected, More(b, bytes)) == Moved(More(step.next, bytes)))
            && (step.Refused? ==> ReadHeader(expected, More(b, bytes)) == step)
  {
    hide ParseHeader, IndexOf;
    if IndexOf(b.buffer, NEWLINE, 0) >= 0 {
      FirstKept(b.buffer, NEWLINE, bytes);
    }
  }

  lemma BodyFed(settings: Settings, b: Batch, bytes: Bytes)
    requires b.pending.Some?
    ensures var step := ReadBody(settings, b);
            && (step.Moved? ==> ReadBody(settings, More(b, bytes)) == Moved(More(step.next, bytes)))
            && (step.Refused? ==> ReadBody(settings, More(b, bytes)) == step)
  {
    hide ParseEntries;
    var longer, size := b.buffer + bytes, b.pending.value.1;
    if size < |b.buffer| {
      assert longer[..size] == b.buffer[..size];
      assert longer[size + 1..] == b.buffer[size + 1..] + bytes;
    }
  }

  /** Draining as bytes arrive, or once they have all arrived, comes to the same. */
  lemma {:induction false} DrainFed(settings: Settings, expected: seq<Oid>, b: Batch, bytes: Bytes)
    ensures Drain(settings, expected, More(b, bytes))
            == match Drain(settings, expected, b)
               case Stopped(code) => Stopped(code)
               case Ready(rest) => Drain(settings, expected, More(rest, bytes))
    decreases |b.buffer|
  {
    hide Advance;
    AdvanceFed(settings, expected, b, bytes);
    match Advance(settings, expected, b)
    case Waiting =>
    case Refused(_) =>
    case Moved(next) => DrainFed(settings, expected, next, bytes);
  }

  // ----- the chunk-fed parser

  /** The parser has been waiting for the end of a header line for more than 128 bytes. */
  predicate HeaderOverrun(b: Batch) { b.pending.None? && |b.buffer| > MAX_HEADER }

  predicate Overrun(settings: Settings, expected: seq<Oid>, stream: Bytes) {
    var drained := Drain(settings, expected, Start(stream));
    drained.Ready? && HeaderOverrun(drained.batch)
  }

  class StreamingTreeBatchParser {
    const settings: Settings
    const expectedOids: seq<Oid>
    var trees: map<Oid, seq<TreeEntry>>
    var buffer: Bytes
    var expectedIndex: nat
    var materializedEntries: nat
    var pending: Option<(Oid, nat)>
    ghost var stream: Bytes   // everything pushed so far

    ghost predicate Valid()
      reads this
    {
      && Drain(settings, expectedOids, Start(stream)) == Ready(State())
      && !HeaderOverrun(State())
    }

    ghost function State(): Batch
      reads this
    {
      Batch(trees, expectedIndex, materializedEntries, pending, buffer)
    }

    constructor (settings: Settings, expectedOids: seq<Oid>)
      ensures Valid() && stream == [] && this.settings == settings && this.expectedOids == expectedOids
    {
      this.settings, this.expectedOids := settings, expectedOids;
      trees, buffer, expectedIndex, materializedEntries, pending, stream := map[], [], 0, 0, None, [];
    }

    /** Pass exactly when the whole stream so far drains without refusal or an overrun header. */
    method Push(chunk: Bytes) returns (r: Outcome)
      requires Valid()
      modifies this
      ensures stream == old(stream) + chunk
      ensures r.Pass? ==> Valid()
      ensures r == match Drain(settings, expectedOids, Start(stream))
                   case Stopped(code) => Fail(code)
                   case Ready(b) => if HeaderOverrun(b) then Fail(Invalid) else Pass
    {
      hide ParseHeader, ParseEntries, IndexOf, Advance;
      DrainFed(settings, expectedOids, Start(stream), chunk);
      assert More(Start(stream), chunk) == Start(stream + chunk);
      stream := stream + chunk;
      buffer := buffer + chunk;
      ghost var target := Drain(settings, expectedOids, Start(stream));
      while true
        invariant stream == old(stream) + chunk
        invariant Drain(settings, expectedOids, State()) == target == Drain(settings, expectedOids, Start(stream))
        decreases |buffer|
      {
        var step := Advance(settings, expectedOids, Batch(trees, expectedIndex, materializedEntries, pending, buffer));
        match step
        case Waiting =>
          return if pending.None? && |buffer| > MAX_HEADER then Fail(Invalid) else Pass;
        case Refused(code) =>
          return Fail(code);
        case Moved(next) =>
          trees, buffer, expectedIndex, materializedEntries, pending :=
            next.trees, next.buffer, next.index, next.materialized, next.pending;
      }
    }

    /** The trees, when the stream ended on a record boundary after the last expected object. */
    method Finish() returns (r: Option<map<Oid, seq<TreeEntry>>>)
      requires Valid()
      ensures r == Finished(expectedOids, Drain(settings, expectedOids, Start(stream)))
    {
      if pending.Some? || buffer != [] || expectedIndex != |expectedOids| {
        return None;
      }
      r := Some(trees);
    }
  }

  function Finished(expected: seq<Oid>, drained: Drained): Option<map<Oid, seq<TreeEntry>>> {
    if drained.Ready? && drained.batch.pending.None? && drained.batch.buffer == []
       && drained.batch.index == |expected|
    then Some(drained.batch.trees)
    else None
  }

  /** The reference result: what the stream says when it arrives at once. */
  function Decode(settings: Settings, expected: seq<Oid>, stream: Bytes): Option<map<Oid, seq<TreeEntry>>> {
    Finished(expected, Drain(settings, expected, Start(stream)))
  }

  // ----- independence from the chunking

  /** No prefix made of whole chunks is refused or leaves a header line overrun. */
  ghost predicate StreamsClean(settings: Settings, expected: seq<Oid>, chunks: seq<Bytes>) {
    forall i | 0 <= i <= |chunks| ::
      var stream := AcceptListing.Concat(chunks[..i]);
      Drain(settings, expected, Start(stream)).Ready? && !Overrun(settings, expected, stream)
  }

  /** What `cat-file` output yields when it arrives in these chunks. */
  ghost function Streamed(settings: Settings, expected: seq<Oid>, chunks: seq<Bytes>): Option<map<Oid, seq<TreeEntry>>> {
    if StreamsClean(settings, expected, chunks) then Decode(settings, expected, AcceptListing.Concat(chunks)) else None
  }

  method ReadRepositoryTrees(settings: Settings, expected: seq<Oid>, chunks: seq<Bytes>)
    returns (r: Option<map<Oid, seq<TreeEntry>>>)
    ensures r == Streamed(settings, expected, chunks)
  {
    hide Drain;
    var parser := new StreamingTreeBatchParser(settings, expected);
    for i := 0 to |chunks|
      invariant fresh(parser) && parser.Valid() && parser.settings == settings && parser.expectedOids == expected
      invariant parser.stream == AcceptListing.Concat(chunks[..i])
      invariant forall j | 0 <= j <= i ::
                  var stream := AcceptListing.Concat(chunks[..j]);
                  Drain(settings, expected, Start(stream)).Ready? && !Overrun(settings, expected, stream)
    {
      assert chunks[..i + 1][..i] == chunks[..i];
      var pushed := parser.Push(chunks[i]);
      if pushed.Fail? {
        return None;
      }
    }
    assert chunks[..|chunks|] == chunks;
    r := parser.Finish();
  }

  /** The header lines read while draining. */
  function HeaderLines(settings: Settings, expected: seq<Oid>, b: Batch): seq<Bytes>
    decreases |b.buffer|
  {
    var step := Advance(settings, expected, b);
    if step.Moved? then HeaderHere(b) + HeaderLines(settings, expected, step.next) else []
  }

  function HeaderHere(b: Batch): seq<Bytes> {
    var end := IndexOf(b.buffer, NEWLINE, 0);
    if b.pending.None? && end >= 0 then [b.buffer[..end]] else []
  }

  predicate HeadersShort(settings: Settings, expected: seq<Oid>, b: Batch) {
    forall line | line in HeaderLines(settings, expected, b) :: |line| <= MAX_HEADER
  }

  lemma {:induction false} HeadersFed(settings: Settings, expected: seq<Oid>, b: Batch, bytes: Bytes)
    requires Drain(settings, expected, b).Ready?
    ensures HeaderLines(settings, expected, More(b, bytes))
            == HeaderLines(settings, expected, b)
               + HeaderLines(settings, expected, More(Drain(settings, expected, b).batch, bytes))
    decreases |b.buffer|
  {
    hide Advance, HeaderHere;
    var step := Advance(settings, expected, b);
    if step.Moved? {
      AdvanceFed(settings, expected, b, bytes);
      HeadersFed(settings, expected, step.next, bytes);
      HeaderHereFed(settings, expected, b, bytes);
    }
  }

  lemma HeaderHereFed(settings: Settings, expected: seq<Oid>, b: Batch, bytes: Bytes)
    requires Advance(settings, expected, b).Moved?
    ensures HeaderHere(More(b, bytes)) == HeaderHere(b)
  {
    hide IndexOf, ParseHeader;
    if b.pending.None? {
      FirstKept(b.buffer, NEWLINE, bytes);
    }
  }

  lemma {:induction false} DrainedWaits(settings: Settings, expected: seq<Oid>, b: Batch)
    ensures var d := Drain(settings, expected, b); d.Ready? ==> Advance(settings, expected, d.batch).Waiting?
    decreases |b.buffer|
  {
    hide Advance;
    var step := Advance(settings, expected, b);
    if step.Moved? {
      DrainedWaits(settings, expected, step.next);
    }
  }

  /** A stream that decodes with short headers decodes the same however it is cut. */
  lemma ShortHeadersNeverOverrun(settings: Settings, expected: seq<Oid>, front: Bytes, back: Bytes)
    requires Decode(settings, expected, front + back).Some?
    requires HeadersShort(settings, expected, Start(front + back))
    ensures Drain(settings, expected, Start(front)).Ready? && !Overrun(settings, expected, front)
  {
    hide Advance, HeaderHere, Drain;
    DrainFed(settings, expected, Start(front), back);
    assert More(Start(front), back) == Start(front + back);
    HeadersFed(settings, expected, Start(front), back);
    var rest := Drain(settings, expected, Start(front)).batch;
    DrainedWaits(settings, expected, Start(front));
    hide HeaderLines;
    if HeaderOverrun(rest) {
      OverrunShows(settings, expected, rest, back);
      assert false;
    }
  }

  lemma OverrunShows(settings: Settings, expected: seq<Oid>, rest: Batch, back: Bytes)
    requires HeaderOverrun(rest) && Advance(settings, expected, rest).Waiting?
    requires Finished(expected, Drain(settings, expected, More(rest, back))).Some?
    ensures !HeadersShort(settings, expected, More(rest, back))
  {
    hide ParseHeader, IndexOf;
    var longer := More(rest, back);
    var end := IndexOf(longer.buffer, NEWLINE, 0);
    assert IndexOf(rest.buffer, NEWLINE, 0) < 0;
    assert forall i | 0 <= i < |rest.buffer| :: longer.buffer[i] == rest.buffer[i] != NEWLINE;
    assert end < 0 || end >= |rest.buffer|;
    assert end >= 0;
    assert Advance(settings, expected, longer).Moved?;
    assert longer.buffer[..end] in HeaderLines(settings, expected, longer);
  }

  /** A header line longer than 128 bytes is refused when a chunk ends inside it. */
  lemma {:induction false} LongHeaderOverruns(settings: Settings, expected: seq<Oid>, b: Batch) returns (n: nat)
    requires !HeadersShort(settings, expected, b)
    ensures n <= |b.buffer|
    ensures var d := Drain(settings, expected, b.(buffer := b.buffer[..n])); d.Ready? && HeaderOverrun(d.batch)
    decreases |b.buffer|
  {
    hide Advance, IndexOf;
    var step := Advance(settings, expected, b);
    var next := step.next;
    var taken := |b.buffer| - |next.buffer|;
    if b.pending.None? && IndexOf(b.buffer, NEWLINE, 0) > MAX_HEADER {
      n := MAX_HEADER + 1;
      CutInHeader(settings, expected, b);
    } else {
      assert !HeadersShort(settings, expected, next);
      var m := LongHeaderOverruns(settings, expected, next);
      n := taken + m;
      StepTaken(settings, expected, b, m);
    }
  }

  lemma CutInHeader(settings: Settings, expected: seq<Oid>, b: Batch)
    requires b.pending.None? && IndexOf(b.buffer, NEWLINE, 0) > MAX_HEADER
    ensures var cut := b.(buffer := b.buffer[..MAX_HEADER + 1]);
            Drain(settings, expected, cut) == Ready(cut) && HeaderOverrun(cut)
  {
    hide IndexOf, ParseHeader;
    assert IndexOf(b.buffer[..MAX_HEADER + 1], NEWLINE, 0) < 0;
  }

  lemma StepTaken(settings: Settings, expected: seq<Oid>, b: Batch, m: nat)
    requires Advance(settings, expected, b).Moved?
    requires m <= |Advance(settings, expected, b).next.buffer|
    ensures var next := Advance(settings, expected, b).next;
            var n := |b.buffer| - |next.buffer| + m;
            Advance(settings, expected, b.(buffer := b.buffer[..n])) == Moved(next.(buffer := next.buffer[..m]))
  {
    hide ReadHeader, ReadBody;
    var next := Advance(settings, expected, b).next;
    var taken := |b.buffer| - |next.buffer|;
    var short := b.(buffer := b.buffer[..taken]);
    if b.pending.None? {
      HeaderStepAlone(expected, b);
    } else {
      BodyStepAlone(settings, b);
    }
    hide Advance;
    assert Advance(settings, expected, short) == Moved(next.(buffer := []));
    AdvanceFed(settings, expected, short, next.buffer[..m]);
    assert b.buffer[..taken + m] == short.buffer + next.buffer[..m];
    assert [] + next.buffer[..m] == next.buffer[..m];
  }

  lemma HeaderStepAlone(expected: seq<Oid>, b: Batch)
    requires b.pending.None? && ReadHeader(expected, b).Moved?
    ensures var next := ReadHeader(expected, b).next;
            && next.buffer == b.buffer[|b.buffer| - |next.buffer|..]
            && ReadHeader(expected, b.(buffer := b.buffer[..|b.buffer| - |next.buffer|])) == Moved(next.(buffer := []))
  {
    hide ParseHeader, IndexOf;
    var end := IndexOf(b.buffer, NEWLINE, 0);
    HeaderAlone(b.buffer, end);
    assert b.buffer[..end + 1][end + 1..] == [];
  }

  lemma BodyStepAlone(settings: Settings, b: Batch)
    requires b.pending.Some? && ReadBody(settings, b).Moved?
    ensures var next := ReadBody(settings, b).next;
            && next.buffer == b.buffer[|b.buffer| - |next.buffer|..]
            && ReadBody(settings, b.(buffer := b.buffer[..|b.buffer| - |next.buffer|])) == Moved(next.(buffer := []))
  {
    hide ParseEntries;
    var size := b.pending.value.1;
    var short := b.buffer[..size + 1];
    assert short[..size] == b.buffer[..size] && short[size] == b.buffer[size];
    assert short[size + 1..] == [];
  }

  lemma HeaderAlone(buffer: Bytes, end: nat)
    requires end < |buffer| && IndexOf(buffer, NEWLINE, 0) == end
    ensures IndexOf(buffer[..end + 1], NEWLINE, 0) == end && buffer[..end + 1][..end] == buffer[..end]
  {
    hide IndexOf;
    assert buffer[..end + 1][end] == NEWLINE;
  }

  /** Main result: a stream that decodes is decoded the same under every chunking exactly when each of its
      header lines has at most 128 bytes. */
  lemma ChunkIndependence(settings: Settings, expected: seq<Oid>, stream: Bytes)
    requires Decode(settings, expected, stream).Some?
    ensures HeadersShort(settings, expected, Start(stream)) <==>
            forall chunks | AcceptListing.Concat(chunks) == stream ::
              Streamed(settings, expected, chunks) == Decode(settings, expected, stream)
  {
    hide Drain, HeaderLines, Advance, HeadersShort;
    if HeadersShort(settings, expected, Start(stream)) {
      forall chunks | AcceptListing.Concat(chunks) == stream
        ensures StreamsClean(settings, expected, chunks)
      {
        forall i | 0 <= i <= |chunks|
          ensures var front := AcceptListing.Concat(chunks[..i]);
                  Drain(settings, expected, Start(front)).Ready? && !Overrun(settings, expected, front)
        {
          var back := ConcatRest(chunks, i);
          ShortHeadersNeverOverrun(settings, expected, AcceptListing.Concat(chunks[..i]), back);
        }
      }
    } else {
      var n := LongHeaderOverruns(settings, expected, Start(stream));
      var chunks: seq<Bytes> := [stream[..n], stream[n..]];
      var first: seq<Bytes> := [stream[..n]];
      assert chunks[..1] == first && first[..0] == [];
      assert AcceptListing.Concat(chunks[..1]) == stream[..n];
      assert AcceptListing.Concat(chunks) == stream[..n] + stream[n..] == stream;
      assert Overrun(settings, expected, AcceptListing.Concat(chunks[..1]));
      assert !StreamsClean(settings, expected, chunks);
    }
  }

  lemma {:induction false} ConcatRest(chunks: seq<Bytes>, i: nat) returns (back: Bytes)
    requires i <= |chunks|
    ensures AcceptListing.Concat(chunks) == AcceptListing.Concat(chunks[..i]) + back
    decreases |chunks|
  {
    if i == |chunks| {
      assert chunks[..i] == chunks;
      back := [];
    } else {
      var front := chunks[..|chunks| - 1];
      back := ConcatRest(front, i);
      assert front[..i] == chunks[..i];
      assert AcceptListing.Concat(chunks[..i]) + (back + chunks[|chunks| - 1])
          == (AcceptListing.Concat(chunks[..i]) + back) + chunks[|chunks| - 1];
      back := back + chunks[|chunks| - 1];
    }
  }
}
