/** Small vocabulary shared by every model: optional values, bytes and UTF-16 text. */
module Common {

  datatype Option<+T> = None | Some(value: T)

  /** One octet of a Git stream, a protocol frame or a file. */
  type Byte = b: int | 0 <= b < 0x100

  type Bytes = seq<Byte>

  /** One UTF-16 code unit: what the source counts when it takes the length of a string. */
  type Utf16 = u: int | 0 <= u < 0x1_0000

  type Text = seq<Utf16>

  const SLASH: Utf16 := 0x2f
  const DOT: Utf16 := 0x2e

  /** Path segments joined by a slash. */
  function Join(names: seq<Text>): Text {
    if names == [] then []
    else if |names| == 1 then names[0]
    else Join(names[..|names| - 1]) + [SLASH] + names[|names| - 1]
  }

  lemma JoinNonempty(names: seq<Text>)
    requires names != []
    requires forall i | 0 <= i < |names| :: names[i] != []
    ensures Join(names) != []
  {}

  /** Appending one segment to a nonempty path costs a slash and the segment. */
  lemma JoinAppend(names: seq<Text>, name: Text)
    ensures Join(names + [name]) == if names == [] then name else Join(names) + [SLASH] + name
  {
    assert (names + [name])[..|names|] == names;
  }

  /** The first index at or after `from` holding `x`, or -1. */
  function IndexOf<T(==)>(s: seq<T>, x: T, from: nat): (i: int)
    ensures i < 0 ==> i == -1 && forall j | from <= j < |s| :: s[j] != x
    ensures i >= 0 ==> from <= i < |s| && s[i] == x && forall j | from <= j < i :: s[j] != x
    decreases |s| - from
  {
    if from >= |s| then -1 else if s[from] == x then from else IndexOf(s, x, from + 1)
  }

  /** Appending does not move the first occurrence. */
  lemma FirstKept<T>(a: seq<T>, x: T, b: seq<T>)
    requires IndexOf(a, x, 0) >= 0
    ensures var i := IndexOf(a, x, 0);
            IndexOf(a + b, x, 0) == i && (a + b)[..i] == a[..i] && (a + b)[i + 1..] == a[i + 1..] + b
  {
    hide IndexOf;
    var i := IndexOf(a, x, 0);
    assert (a + b)[i] == x;
  }

  /** The pieces of `s` between occurrences of `sep`: always at least one piece. */
  function Split<T(==)>(s: seq<T>, sep: T): (pieces: seq<seq<T>>)
    ensures pieces != []
    decreases |s|
  {
    var i := IndexOf(s, sep, 0);
    if i < 0 then [s] else [s[..i]] + Split(s[i + 1..], sep)
  }

  lemma SplitFirst<T>(a: seq<T>, sep: T, b: seq<T>)
    requires sep !in a
    ensures Split(a + [sep] + b, sep) == [a] + Split(b, sep)
  {
    hide IndexOf;
    var s := a + [sep] + b;
    assert s[|a|] == sep;
    assert s[..|a|] == a && s[|a| + 1..] == b;
  }

  lemma SplitUnfold<T>(s: seq<T>, sep: T)
    ensures var i := IndexOf(s, sep, 0);
            Split(s, sep) == if i < 0 then [s] else [s[..i]] + Split(s[i + 1..], sep)
  {
    hide IndexOf;
  }

  lemma {:induction false} SplitLast<T>(a: seq<T>, sep: T, b: seq<T>)
    requires sep !in b
    ensures Split(a + [sep] + b, sep) == Split(a, sep) + [b]
    decreases |a|
  {
    hide IndexOf, Split;
    var i := IndexOf(a, sep, 0);
    SplitUnfold(a, sep);
    SplitUnfold(b, sep);
    if i < 0 {
      SplitFirst(a, sep, b);
    } else {
      var later := a[i + 1..];
      SplitLast(later, sep, b);
      assert a + [sep] + b == a + ([sep] + b);
      FirstKept(a, sep, [sep] + b);
      SplitUnfold(a + ([sep] + b), sep);
      assert later + ([sep] + b) == later + [sep] + b;
    }
  }

  /** Splitting a joined path gives back its segments. */
  lemma {:induction false} SplitJoined(names: seq<Text>)
    requires names != []
    requires forall i | 0 <= i < |names| :: SLASH !in names[i]
    ensures Split(Join(names), SLASH) == names
    decreases |names|
  {
    hide IndexOf;
    if |names| > 1 {
      var front, last := names[..|names| - 1], names[|names| - 1];
      SplitJoined(front);
      SplitLast(Join(front), SLASH, last);
      assert names == front + [last];
    }
  }

  /** The lossy seven-bit decoding of bytes the source uses for metadata. */
  function Ascii(b: Bytes): (s: string)
    ensures |s| == |b|
  {
    seq(|b|, i requires 0 <= i < |b| => (b[i] % 128) as char)
  }

  /** The bytes of seven-bit text. */
  function AsciiBytes(s: string): (b: Bytes)
    ensures |b| == |s|
  {
    seq(|s|, i requires 0 <= i < |s| => s[i] as int % 128)
  }

  predicate HexDigit(c: char) { '0' <= c <= '9' || 'a' <= c <= 'f' }

  /** A sequence without its element at `i`. */
  function Without<T>(s: seq<T>, i: nat): seq<T>
    requires i < |s|
  {
    s[..i] + s[i + 1..]
  }

  lemma WithoutAt<T>(s: seq<T>, i: nat)
    requires i < |s|
    ensures |Without(s, i)| == |s| - 1 && forall j | 0 <= j < |s| - 1 :: Without(s, i)[j] == s[if j < i then j else j + 1]
  {}

  lemma {:induction false} SubsetCardinality<T>(a: set<T>, b: set<T>)
    requires a <= b
    ensures |a| <= |b|
    decreases a
  {
    if a != {} {
      var x :| x in a;
      SubsetCardinality(a - {x}, b - {x});
    }
  }
}
