/**
 * The string operations of Python's `str` that the tool relies on, over
 * `seq<char>`. Case mapping is ASCII-only; whitespace is the set of
 * characters for which Python's `str.isspace()` holds.
 */
module Text {

  function LowerChar(c: char): char {
    if 'A' <= c <= 'Z' then (c as int - 'A' as int + 'a' as int) as char else c
  }

  function UpperChar(c: char): char {
    if 'a' <= c <= 'z' then (c as int - 'a' as int + 'A' as int) as char else c
  }

  /** `s.lower()` */
  function Lower(s: string): string {
    seq(|s|, i requires 0 <= i < |s| => LowerChar(s[i]))
  }

  /** `s.upper()` */
  function Upper(s: string): string {
    seq(|s|, i requires 0 <= i < |s| => UpperChar(s[i]))
  }

  /** No ASCII lower-case letter occurs in `s`. */
  predicate HasNoLowerCase(s: string) {
    forall i :: 0 <= i < |s| ==> !('a' <= s[i] <= 'z')
  }

  lemma UpperHasNoLowerCase(s: string)
    ensures HasNoLowerCase(Upper(s))
  {
  }

  /** `s.startswith(prefix)` */
  predicate StartsWith(s: string, prefix: string) {
    |prefix| <= |s| && s[..|prefix|] == prefix
  }

  /** `s.endswith(suffix)` */
  predicate EndsWith(s: string, suffix: string) {
    |suffix| <= |s| && s[|s| - |suffix|..] == suffix
  }

  /** `w in s`: `w` occurs in `s` as a contiguous block (the empty string always does). */
  predicate Contains(s: string, w: string)
    decreases |s|
  {
    StartsWith(s, w) || (|s| > 0 && Contains(s[1..], w))
  }

  lemma {:induction false} ContainsAt(s: string, w: string, i: nat)
    requires i <= |s| && StartsWith(s[i..], w)
    ensures Contains(s, w)
  {
    if i > 0 {
      assert s[1..][i - 1..] == s[i..];
      ContainsAt(s[1..], w, i - 1);
    }
  }

  lemma {:induction false} ContainsWitness(s: string, w: string) returns (i: nat)
    requires Contains(s, w)
    ensures i <= |s| && StartsWith(s[i..], w)
  {
    if StartsWith(s, w) {
      i := 0;
    } else {
      var j := ContainsWitness(s[1..], w);
      assert s[1..][j..] == s[j + 1..];
      i := j + 1;
    }
  }

  /** A text occurs in any text built around it. */
  lemma ContainsMiddle(a: string, w: string, b: string)
    ensures Contains(a + w + b, w)
  {
    assert (a + w + b)[|a|..][..|w|] == w;
    ContainsAt(a + w + b, w, |a|);
  }

  lemma StartsWithAppend(a: string, b: string)
    ensures StartsWith(a + b, a)
  {
    assert (a + b)[..|a|] == a;
  }

  lemma EndsWithAppend(a: string, b: string)
    ensures EndsWith(a + b, b)
  {
    assert (a + b)[|a + b| - |b|..] == b;
  }

  lemma ContainsLength(s: string, w: string)
    requires Contains(s, w)
    ensures |w| <= |s|
  {
    var i := ContainsWitness(s, w);
  }

  /** A one-character string occurs in `s` exactly when the character does. */
  lemma ContainsCharIff(s: string, c: char)
    ensures Contains(s, [c]) <==> c in s
  {
    if Contains(s, [c]) {
      var i := ContainsWitness(s, [c]);
      assert s[i..][0] == s[i];
    }
    if c in s {
      var i :| 0 <= i < |s| && s[i] == c;
      assert s[i..][..1] == [c];
      ContainsAt(s, [c], i);
    }
  }

  /** The characters for which Python's `str.isspace()` is true, in code-point order. */
  const PythonWhitespace: string :=
    "\t\n\U{B}\U{C}\r\U{1C}\U{1D}\U{1E}\U{1F} \U{85}\U{A0}\U{1680}"
    + "\U{2000}\U{2001}\U{2002}\U{2003}\U{2004}\U{2005}\U{2006}\U{2007}\U{2008}\U{2009}\U{200A}"
    + "\U{2028}\U{2029}\U{202F}\U{205F}\U{3000}"

  /** `c` is one of the characters of `cs`, looked up one at a time. */
  predicate OneOf(c: char, cs: string)
    decreases |cs|
  {
    cs != [] && (cs[0] == c || OneOf(c, cs[1..]))
  }

  lemma {:induction false} OneOfIff(c: char, cs: string)
    ensures OneOf(c, cs) <==> c in cs
    decreases |cs|
  {
    if cs != [] {
      OneOfIff(c, cs[1..]);
      assert cs == [cs[0]] + cs[1..];
    }
  }

  predicate IsSpace(c: char) {
    OneOf(c, PythonWhitespace)
  }

  /** `s.lstrip()`: the longest suffix of `s` that does not start with whitespace. */
  function LStrip(s: string): (r: string)
    ensures |r| <= |s| && r == s[|s| - |r|..]
    ensures |r| > 0 ==> !IsSpace(r[0])
    ensures forall k :: 0 <= k < |s| - |r| ==> IsSpace(s[k])
    decreases |s|
  {
    if |s| > 0 && IsSpace(s[0]) then LStrip(s[1..]) else s
  }

  /** `s.rstrip()`: the longest prefix of `s` that does not end with whitespace. */
  function RStrip(s: string): (r: string)
    ensures |r| <= |s| && r == s[..|r|]
    ensures |r| > 0 ==> !IsSpace(r[|r| - 1])
    ensures forall k :: |r| <= k < |s| ==> IsSpace(s[k])
    decreases |s|
  {
    if |s| > 0 && IsSpace(s[|s| - 1]) then RStrip(s[..|s| - 1]) else s
  }

  /** `s.strip()`: a block of `s` that neither starts nor ends with whitespace. */
  function Strip(s: string): (r: string)
    ensures |r| <= |s|
    ensures |r| > 0 ==> !IsSpace(r[0]) && !IsSpace(r[|r| - 1])
    ensures forall c :: c in r ==> c in s
  {
    var l := LStrip(s);
    var r := RStrip(l);
    SliceMembers(s, |s| - |l|, |s|);
    SliceMembers(l, 0, |r|);
    r
  }

  lemma SliceMembers(s: string, i: nat, j: nat)
    requires i <= j <= |s|
    ensures forall c :: c in s[i..j] ==> c in s
  {
    forall c | c in s[i..j] ensures c in s {
      var k :| 0 <= k < j - i && s[i..j][k] == c;
      assert s[i + k] == c;
    }
  }

  /** No visible ASCII character is whitespace. */
  lemma VisibleAsciiNotSpace(c: char)
    requires '!' <= c <= '~'
    ensures !IsSpace(c)
  {
    OneOfIff(c, PythonWhitespace);
    assert c !in PythonWhitespace;
  }

  lemma SpaceIsSpace()
    ensures IsSpace(' ')
  {
    OneOfIff(' ', PythonWhitespace);
    assert PythonWhitespace[9] == ' ';
  }

  /** A text with no whitespace at either end is its own strip. */
  lemma StripUnchanged(s: string)
    requires |s| > 0 && !IsSpace(s[0]) && !IsSpace(s[|s| - 1])
    ensures LStrip(s) == s && RStrip(s) == s && Strip(s) == s
  {
  }

  /** One leading blank before a text with no whitespace at either end is all that strip removes. */
  lemma StripAfterSpace(s: string)
    requires |s| > 1 && s[0] == ' ' && !IsSpace(s[1]) && !IsSpace(s[|s| - 1])
    ensures Strip(s) == s[1..]
  {
    SpaceIsSpace();
    assert LStrip(s) == LStrip(s[1..]);
    StripUnchanged(s[1..]);
  }

  /** `s.rstrip(c)`: every trailing `c` removed. */
  function RStripChar(s: string, c: char): (r: string)
    ensures |r| <= |s| && r == s[..|r|]
    ensures |r| > 0 ==> r[|r| - 1] != c
    ensures forall k :: |r| <= k < |s| ==> s[k] == c
    decreases |s|
  {
    if |s| > 0 && s[|s| - 1] == c then RStripChar(s[..|s| - 1], c) else s
  }

  /** `s.split(c, 1)[1]`: what follows the first `c`. */
  function AfterFirst(s: string, c: char): (r: string)
    requires c in s
    ensures |r| < |s| && r == s[|s| - |r|..] && s[|s| - |r| - 1] == c
    ensures c !in s[..|s| - |r| - 1]
    decreases |s|
  {
    if s[0] == c then s[1..] else AfterFirst(s[1..], c)
  }

  /** What follows the first `c` is what follows position `i` when `s[i]` is the first `c`. */
  lemma {:induction false} AfterFirstAt(s: string, c: char, i: nat)
    requires i < |s| && s[i] == c && c !in s[..i]
    ensures AfterFirst(s, c) == s[i + 1..]
    decreases i
  {
    if i > 0 {
      assert s[0] in s[..i];
      assert s[1..][..i - 1] == s[1..i];
      AfterFirstAt(s[1..], c, i - 1);
    }
  }

  /** `s.split(sep)` for a non-empty separator: cut at every occurrence, scanning left to right. */
  function Split(s: string, sep: string): (parts: seq<string>)
    requires |sep| > 0
    ensures |parts| >= 1
    decreases |s|
  {
    if |s| < |sep| then [s]
    else if StartsWith(s, sep) then [""] + Split(s[|sep|..], sep)
    else
      var rest := Split(s[1..], sep);
      [[s[0]] + rest[0]] + rest[1..]
  }

  /**
   * The separator written `'\\n'` in Python source: a backslash followed by
   * the letter `n`, two characters, not a line break.
   */
  const LiteralBackslashN: string := ['\\', 'n']

  /** `sep.join(parts)` */
  function Join(parts: seq<string>, sep: string): string
    decreases |parts|
  {
    if |parts| == 0 then ""
    else if |parts| == 1 then parts[0]
    else parts[0] + sep + Join(parts[1..], sep)
  }

  lemma JoinCons(first: string, tail: seq<string>, sep: string)
    requires |tail| >= 1
    ensures Join([first] + tail, sep) == first + sep + Join(tail, sep)
  {
    assert ([first] + tail)[1..] == tail;
  }

  /** Putting a character in front of the first part puts it in front of the joined text. */
  lemma PrependToFirst(c: char, parts: seq<string>, sep: string)
    requires |parts| >= 1
    ensures Join([[c] + parts[0]] + parts[1..], sep) == [c] + Join(parts, sep)
  {
    if |parts| > 1 {
      JoinCons([c] + parts[0], parts[1..], sep);
      JoinCons(parts[0], parts[1..], sep);
      assert [parts[0]] + parts[1..] == parts;
      AppendAssoc3([c], parts[0], sep, Join(parts[1..], sep));
    }
  }

  lemma AppendAssoc3(a: string, b: string, c: string, d: string)
    ensures a + b + c + d == a + (b + c + d)
  {
  }

  /** Joining the pieces of a split gives back the original text. */
  lemma {:induction false} JoinSplit(s: string, sep: string)
    requires |sep| > 0
    ensures Join(Split(s, sep), sep) == s
    decreases |s|
  {
    if |s| < |sep| {
    } else if StartsWith(s, sep) {
      var rest := Split(s[|sep|..], sep);
      assert Split(s, sep) == [""] + rest;
      JoinSplit(s[|sep|..], sep);
      JoinCons("", rest, sep);
      assert s == sep + s[|sep|..];
    } else {
      var rest := Split(s[1..], sep);
      assert Split(s, sep) == [[s[0]] + rest[0]] + rest[1..];
      JoinSplit(s[1..], sep);
      PrependToFirst(s[0], rest, sep);
      assert s == [s[0]] + s[1..];
    }
  }

  /** Splitting a text that starts with a line free of the separator character. */
  lemma {:induction false} SplitAfterLine(line: string, rest: string, c: char)
    requires c !in line
    ensures Split(line + [c] + rest, [c]) == [line] + Split(rest, [c])
    decreases |line|
  {
    var s := line + [c] + rest;
    if |line| == 0 {
      assert s[1..] == rest;
    } else {
      assert s[1..] == line[1..] + [c] + rest;
      SplitAfterLine(line[1..], rest, c);
      assert !StartsWith(s, [c]);
      assert [s[0]] + line[1..] == line;
    }
  }

  /** A line without the separator character is not split at all. */
  lemma {:induction false} SplitNoSeparator(line: string, c: char)
    requires c !in line
    ensures Split(line, [c]) == [line]
    decreases |line|
  {
    if |line| > 0 {
      SplitNoSeparator(line[1..], c);
      assert [line[0]] + line[1..] == line;
    }
  }

  /** Splitting undoes joining, when no part holds the one-character separator. */
  lemma {:induction false} SplitJoin(parts: seq<string>, c: char)
    requires |parts| >= 1
    requires forall k :: 0 <= k < |parts| ==> c !in parts[k]
    ensures Split(Join(parts, [c]), [c]) == parts
    decreases |parts|
  {
    if |parts| == 1 {
      SplitNoSeparator(parts[0], c);
    } else {
      SplitJoin(parts[1..], c);
      SplitAfterLine(parts[0], Join(parts[1..], [c]), c);
      assert [parts[0]] + parts[1..] == parts;
    }
  }

  /** `s.replace(a, b)` for single characters. */
  function ReplaceChar(s: string, a: char, b: char): string {
    seq(|s|, i requires 0 <= i < |s| => if s[i] == a then b else s[i])
  }

  /** `c * n` */
  function Repeat(c: char, n: nat): (r: string)
    ensures |r| == n && forall k :: 0 <= k < n ==> r[k] == c
  {
    seq(n, _ => c)
  }

  function DigitChar(d: nat): char
    requires d < 10
  {
    "0123456789"[d]
  }

  /** `str(n)` for a natural number: its decimal digits. */
  function NatToString(n: nat): (r: string)
    ensures |r| >= 1
    ensures forall k :: 0 <= k < |r| ==> '0' <= r[k] <= '9'
  {
    if n < 10 then [DigitChar(n)] else NatToString(n / 10) + [DigitChar(n % 10)]
  }

  /** `f"{s:>w}"`: right-aligned in a field of at least `w` characters. */
  function PadLeft(s: string, w: nat): (r: string)
    ensures |r| == if |s| < w then w else |s|
    ensures EndsWith(r, s)
  {
    if |s| < w then Repeat(' ', w - |s|) + s else s
  }
}
