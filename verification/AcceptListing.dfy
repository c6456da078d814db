/** The accept policy's check of a flat, NUL-separated tree listing, fed in chunks of any size. */
module AcceptListing {
  import opened Common
  import opened TreePolicy

  const TAB: Byte := 0x09
  const NUL: Byte := 0x00
  const SPACE_CHAR := ' '
  const CUT_OFF := 2048
  const MAX_ENTRIES := 100_000

  /** `decode` is the fatal UTF-8 decoder: None where it throws. */
  datatype Policy = Policy(rules: Rules, decode: Bytes -> Option<Text>, oidLength: nat, maximumSiblings: nat)

  /** A UTF-16 unit comes from at most three bytes, and a stripped byte-order mark costs three. */
  ghost predicate BoundedDecoder(policy: Policy) {
    && policy.oidLength <= 64
    && forall b: Bytes {:trigger policy.decode(b)} :: policy.decode(b).Some? ==> |b| <= 3 * |policy.decode(b).value| + 3
  }

  predicate ValidOid(policy: Policy, oid: string) {
    |oid| == policy.oidLength && forall i | 0 <= i < |oid| :: HexDigit(oid[i])
  }

  // ----- one record

  /** What the parser remembers between records. */
  datatype Seen = Seen(comparisons: map<Text, Text>, siblings: map<Text, nat>, count: nat)

  const NOTHING := Seen(map[], map[], 0)

  /** Record bytes that name a tree or blob of the right kind, and where it lies. */
  function RecordPath(policy: Policy, record: Bytes): Option<Text> {
    var separator := IndexOf(record, TAB, 0);
    if separator <= 0 then None
    else
      var metadata := Split(Ascii(record[..separator]), SPACE_CHAR);
      if |metadata| != 3 then None
      else if !ValidOid(policy, metadata[2])
           || !((metadata[1] == "tree" && IsTreeMode(metadata[0])) || (metadata[1] == "blob" && IsBlobMode(metadata[0])))
      then None
      else match policy.decode(record[separator + 1..])
        case None => None
        case Some(path) =>
          var segments := Split(path, SLASH);
          if path == [] || |path| > MAX_PATH_UTF16
             || exists i | 0 <= i < |segments| :: ValidateSegment(policy.rules, segments[i]).Fail?
          then None
          else Some(path)
  }

  function Siblings(seen: Seen, parent: Text): nat {
    if parent in seen.siblings then seen.siblings[parent] else 0
  }

  /** The directory part of a path: everything before its last slash. */
  function ParentOf(path: Text): Text {
    var segments := Split(path, SLASH);
    Join(segments[..|segments| - 1])
  }

  /** The counting and folding tests, on an otherwise acceptable path. */
  function Remember(policy: Policy, seen: Seen, path: Text): Option<Seen> {
    var parent, folded := ParentOf(path), policy.rules.fold(path);
    if seen.count + 1 > MAX_ENTRIES then None
    else if Siblings(seen, parent) + 1 > policy.maximumSiblings then None
    else if folded in seen.comparisons && seen.comparisons[folded] != path then None
    else Some(Seen(seen.comparisons[folded := path], seen.siblings[parent := Siblings(seen, parent) + 1], seen.count + 1))
  }

  function ParseRecord(policy: Policy, seen: Seen, record: Bytes): Option<Seen> {
    match RecordPath(policy, record)
    case None => None
    case Some(path) => Remember(policy, seen, path)
  }

  // ----- the whole stream

  function ParseAll(policy: Policy, seen: Seen, records: seq<Bytes>): Option<Seen>
    decreases |records|
  {
    if records == [] then Some(seen)
    else match ParseRecord(policy, seen, records[0])
      case None => None
      case Some(next) => ParseAll(policy, next, records[1..])
  }

  /** The records a stream completes, each ended by a NUL. */
  function Completed(stream: Bytes): seq<Bytes>
    decreases |stream|
  {
    var end := IndexOf(stream, NUL, 0);
    if end < 0 then [] else [stream[..end]] + Completed(stream[end + 1..])
  }

  /** The bytes after the last NUL. */
  function Remainder(stream: Bytes): Bytes
    decreases |stream|
  {
    var end := IndexOf(stream, NUL, 0);
    if end < 0 then stream else Remainder(stream[end + 1..])
  }

  /** The reference verdict on a complete stream: every record is acceptable after those before it,
      and nothing follows the last. */
  predicate Acceptable(policy: Policy, stream: Bytes) {
    Remainder(stream) == [] && ParseAll(policy, NOTHING, Completed(stream)).Some?
  }

  lemma {:induction false} ParseAppend(policy: Policy, seen: Seen, a: seq<Bytes>, b: seq<Bytes>)
    ensures ParseAll(policy, seen, a + b)
            == match ParseAll(policy, seen, a) case None => None case Some(mid) => ParseAll(policy, mid, b)
    decreases |a|
  {
    if a == [] {
      assert a + b == b;
    } else {
      assert (a + b)[1..] == a[1..] + b;
      match ParseRecord(policy, seen, a[0])
      case None =>
      case Some(next) => ParseAppend(policy, next, a[1..], b);
    }
  }

  function TotalLength(pieces: seq<string>): nat {
    if pieces == [] then 0 else |pieces[0]| + TotalLength(pieces[1..])
  }

  lemma {:induction false} SplitLengths(s: string, sep: char)
    ensures var pieces := Split(s, sep); |s| == TotalLength(pieces) + |pieces| - 1
    decreases |s|
  {
    var i := IndexOf(s, sep, 0);
    if i >= 0 {
      SplitLengths(s[i + 1..], sep);
      assert Split(s, sep)[1..] == Split(s[i + 1..], sep);
    }
  }

  lemma TotalOfThree(p: seq<string>)
    requires |p| == 3
    ensures TotalLength(p) == |p[0]| + |p[1]| + |p[2]|
  {
    assert p == [p[0]] + ([p[1]] + [p[2]]);
    assert p[1..] == [p[1]] + [p[2]];
    assert p[1..][1..] == [p[2]];
    assert TotalLength([p[2]]) == |p[2]|;
  }

  /** An acceptable record never reaches the cut-off. */
  lemma RecordBound(policy: Policy, seen: Seen, record: Bytes)
    requires BoundedDecoder(policy)
    requires ParseRecord(policy, seen, record).Some?
    ensures |record| <= 76 + 1 + 3 * MAX_PATH_UTF16 + 3 < CUT_OFF
  {
    hide IndexOf, Split, Remember;
    var separator := IndexOf(record, TAB, 0);
    var metadata := Split(Ascii(record[..separator]), SPACE_CHAR);
    SplitLengths(Ascii(record[..separator]), SPACE_CHAR);
    TotalOfThree(metadata);
  }

  // ----- the chunk-fed parser

  /** Feeding more bytes completes records exactly as if they had been waiting behind the remainder. */
  lemma {:induction false} FedMore(a: Bytes, b: Bytes)
    ensures Completed(a + b) == Completed(a) + Completed(Remainder(a) + b)
    ensures Remainder(a + b) == Remainder(Remainder(a) + b)
    ensures NUL !in Remainder(a)
    decreases |a|
  {
    hide Completed, Remainder, IndexOf;
    var end := IndexOf(a, NUL, 0);
    if end < 0 {
      Unbroken(a);
    } else {
      var later := a[end + 1..];
      FirstKept(a, NUL, b);
      Broken(a);
      Broken(a + b);
      FedMore(later, b);
    }
  }

  lemma Unbroken(a: Bytes)
    requires IndexOf(a, NUL, 0) < 0
    ensures Completed(a) == [] && Remainder(a) == a
  {
    hide IndexOf;
  }

  lemma Broken(a: Bytes)
    requires IndexOf(a, NUL, 0) >= 0
    ensures var end := IndexOf(a, NUL, 0);
            Completed(a) == [a[..end]] + Completed(a[end + 1..]) && Remainder(a) == Remainder(a[end + 1..])
  {
    hide IndexOf;
  }

  /** Once the completed records are rejected, or the unfinished one is too long, no continuation
      of the stream can be accepted. */
  lemma Hopeless(policy: Policy, stream: Bytes, more: Bytes)
    requires BoundedDecoder(policy)
    requires ParseAll(policy, NOTHING, Completed(stream)).None? || |Remainder(stream)| > CUT_OFF
    ensures !Acceptable(policy, stream + more)
  {
    var done, rest := Completed(stream), Remainder(stream) + more;
    FedMore(stream, more);
    ParseAppend(policy, NOTHING, done, Completed(rest));
    match ParseAll(policy, NOTHING, done)
    case None =>
    case Some(mid) => TooLong(policy, mid, Remainder(stream), more);
  }

  lemma TooLong(policy: Policy, seen: Seen, pending: Bytes, more: Bytes)
    requires BoundedDecoder(policy) && NUL !in pending && |pending| > CUT_OFF
    ensures Remainder(pending + more) != [] || ParseAll(policy, seen, Completed(pending + more)).None?
  {
    hide IndexOf;
    var rest := pending + more;
    var end := IndexOf(rest, NUL, 0);
    if end >= 0 {
      assert forall i | 0 <= i < |pending| :: rest[i] == pending[i] != NUL;
      if ParseRecord(policy, seen, rest[..end]).Some? {
        RecordBound(policy, seen, rest[..end]);
      }
    }
  }

  /** Taking the first record of the buffer moves it to the parsed ones, or dooms the stream. */
  lemma RecordTaken(policy: Policy, records: seq<Bytes>, seen: Seen, buffer: Bytes)
    requires ParseAll(policy, NOTHING, records) == Some(seen)
    requires IndexOf(buffer, NUL, 0) >= 0
    ensures var end := IndexOf(buffer, NUL, 0);
            var taken, rest := records + [buffer[..end]], buffer[end + 1..];
            && records + Completed(buffer) == taken + Completed(rest)
            && Remainder(buffer) == Remainder(rest)
            && ParseAll(policy, NOTHING, taken) == ParseRecord(policy, seen, buffer[..end])
            && (ParseAll(policy, NOTHING, taken).None? ==> ParseAll(policy, NOTHING, taken + Completed(rest)).None?)
  {
    hide ParseRecord, Completed, Remainder, IndexOf;
    var end := IndexOf(buffer, NUL, 0);
    var record, rest := buffer[..end], buffer[end + 1..];
    Broken(buffer);
    var one: seq<Bytes> := [record];
    ParseAppend(policy, NOTHING, records, one);
    assert one[1..] == [];
    ParseAppend(policy, NOTHING, records + [record], Completed(rest));
  }

  class AcceptTreePolicyParser {
    const policy: Policy
    var seen: Seen
    var buffer: Bytes
    var invalid: bool
    ghost var stream: Bytes   // everything pushed so far

    ghost predicate Valid()
      reads this
    {
      if invalid then forall more: Bytes :: !Acceptable(policy, stream + more)
      else ParseAll(policy, NOTHING, Completed(stream)) == Some(seen) && Remainder(stream) == buffer
    }

    constructor (policy: Policy)
      ensures Valid() && stream == [] && this.policy == policy
    {
      this.policy := policy;
      seen, buffer, invalid, stream := NOTHING, [], false, [];
      Unbroken([]);
    }

    method Push(chunk: Bytes)
      requires Valid() && BoundedDecoder(policy)
      modifies this
      ensures Valid() && stream == old(stream) + chunk
    {
      hide Acceptable, BoundedDecoder, ParseRecord, ParseAll, Completed, Remainder, IndexOf;
      ghost var whole := stream + chunk;
      if invalid {
        forall more: Bytes ensures !Acceptable(policy, whole + more) {
          assert whole + more == stream + (chunk + more);
        }
        stream := whole;
        return;
      }
      ghost var records := Completed(stream);
      FedMore(stream, chunk);
      buffer := buffer + chunk;
      stream := whole;
      while true
        invariant !invalid && stream == whole
        invariant ParseAll(policy, NOTHING, records) == Some(seen)
        invariant Completed(whole) == records + Completed(buffer) && Remainder(whole) == Remainder(buffer)
        decreases |buffer|
      {
        var end := IndexOf(buffer, NUL, 0);
        if end < 0 {
          Unbroken(buffer);
          assert records + Completed(buffer) == records;
          if |buffer| > CUT_OFF {
            Reject(whole);
          }
          return;
        }
        RecordTaken(policy, records, seen, buffer);
        records := records + [buffer[..end]];
        var next := ParseRecord(policy, seen, buffer[..end]);
        buffer := buffer[end + 1..];
        if next.None? {
          Reject(whole);
          return;
        }
        seen := next.value;
      }
    }

    /** Forgets the buffer and refuses everything from now on. */
    method Reject(ghost whole: Bytes)
      requires BoundedDecoder(policy) && stream == whole
      requires ParseAll(policy, NOTHING, Completed(whole)).None? || |Remainder(whole)| > CUT_OFF
      modifies this
      ensures Valid() && invalid && stream == whole && buffer == [] && seen == old(seen)
    {
      hide Acceptable, BoundedDecoder, ParseAll, Completed, Remainder;
      forall more: Bytes ensures !Acceptable(policy, whole + more) {
        Hopeless(policy, whole, more);
      }
      invalid, buffer := true, [];
    }

    /** True where the source returns, false where it throws. */
    method Finish() returns (accepted: bool)
      requires Valid()
      ensures accepted <==> Acceptable(policy, stream)
    {
      assert stream + [] == stream;
      accepted := !invalid && buffer == [];
    }
  }

  function Concat(chunks: seq<Bytes>): Bytes {
    if chunks == [] then [] else Concat(chunks[..|chunks| - 1]) + chunks[|chunks| - 1]
  }

  /** The policy assertion: the listing arrives in arbitrary chunks, and only its bytes matter. */
  method AssertAcceptTreePolicy(policy: Policy, chunks: seq<Bytes>) returns (accepted: bool)
    requires BoundedDecoder(policy)
    ensures accepted <==> Acceptable(policy, Concat(chunks))
  {
    var parser := new AcceptTreePolicyParser(policy);
    for i := 0 to |chunks|
      invariant parser.Valid() && parser.stream == Concat(chunks[..i]) && parser.policy == policy
      invariant fresh(parser)
    {
      assert chunks[..i + 1][..i] == chunks[..i];
      parser.Push(chunks[i]);
    }
    assert chunks[..|chunks|] == chunks;
    accepted := parser.Finish();
  }
}
