/**
 * Shared vocabulary: Option/Result wrappers and the string operations the
 * Python and Swift code relies on (str.strip, str.split, `in` on strings,
 * String.trimmingCharacters(in: .whitespacesAndNewlines)).
 */
module Common {

  datatype Option<+T> = None | Some(value: T)

  datatype Result<+T, +E> = Ok(value: T) | Err(error: E)

  /** Characters for which Python's str.isspace() is true. */
  predicate PyIsSpace(c: char) {
    || c == ' ' || c == '\t' || c == '\n' || c == '\r' || c == '\U{000B}' || c == '\U{000C}'
    || ('\U{001C}' <= c <= '\U{001F}')
    || c == '\U{0085}' || c == '\U{00A0}' || c == '\U{1680}'
    || ('\U{2000}' <= c <= '\U{200A}')
    || c == '\U{2028}' || c == '\U{2029}' || c == '\U{202F}' || c == '\U{205F}' || c == '\U{3000}'
  }

  /** Members of Foundation's CharacterSet.whitespacesAndNewlines: tab, U+000A..U+000D,
      U+0085 and the Unicode separators (categories Zs, Zl, Zp). */
  predicate SwiftIsWhitespaceOrNewline(c: char) {
    || c == '\t' || ('\n' <= c <= '\r') || c == '\U{0085}'
    || c == ' ' || c == '\U{00A0}' || c == '\U{1680}'
    || ('\U{2000}' <= c <= '\U{200A}')
    || c == '\U{2028}' || c == '\U{2029}' || c == '\U{202F}' || c == '\U{205F}' || c == '\U{3000}'
  }

  /** `s.trimmingCharacters(in: .whitespacesAndNewlines).isEmpty` */
  predicate SwiftIsBlank(s: string) {
    forall i :: 0 <= i < |s| ==> SwiftIsWhitespaceOrNewline(s[i])
  }

  /** Number of leading characters Python's strip() removes. */
  function LeadingSpaces(s: string): (n: nat)
    ensures n <= |s|
    ensures forall k :: 0 <= k < n ==> PyIsSpace(s[k])
    ensures n < |s| ==> !PyIsSpace(s[n])
  {
    if s == [] || !PyIsSpace(s[0]) then 0 else 1 + LeadingSpaces(s[1..])
  }

  /** Number of trailing characters Python's strip() removes. */
  function TrailingSpaces(s: string): (n: nat)
    ensures n <= |s|
    ensures forall k :: |s| - n <= k < |s| ==> PyIsSpace(s[k])
    ensures n < |s| ==> !PyIsSpace(s[|s| - 1 - n])
  {
    if s == [] || !PyIsSpace(s[|s| - 1]) then 0 else 1 + TrailingSpaces(s[..|s| - 1])
  }

  /** Python's str.strip() with no argument. */
  function PyStrip(s: string): (r: string)
    ensures |r| <= |s|
    ensures r != [] ==> !PyIsSpace(r[0]) && !PyIsSpace(r[|r| - 1])
  {
    var lead := LeadingSpaces(s);
    if lead == |s| then [] else
      var trail := TrailingSpaces(s);
      s[lead..|s| - trail]
  }

  /** The removed characters are all whitespace: strip keeps a contiguous middle part. */
  lemma {:induction false} PyStripIsMiddle(s: string)
    ensures exists i, j :: (0 <= i <= j <= |s| && PyStrip(s) == s[i..j]
      && (forall k :: 0 <= k < i ==> PyIsSpace(s[k]))
      && (forall k :: j <= k < |s| ==> PyIsSpace(s[k])))
  {
    var lead := LeadingSpaces(s);
    if lead == |s| {
      assert PyStrip(s) == s[0..0];
    } else {
      var trail := TrailingSpaces(s);
      assert PyStrip(s) == s[lead..|s| - trail];
    }
  }

  /** `not s.strip()`: the stripped text is empty exactly when every character is whitespace. */
  lemma PyStripEmptyIff(s: string)
    ensures PyStrip(s) == [] <==> forall k :: 0 <= k < |s| ==> PyIsSpace(s[k])
  {
    var lead := LeadingSpaces(s);
    if lead < |s| {
      assert !PyIsSpace(s[lead]);
    }
  }

  /** Stripping twice changes nothing more. */
  lemma PyStripIdempotent(s: string)
    ensures PyStrip(PyStrip(s)) == PyStrip(s)
  {
    var r := PyStrip(s);
    if r != [] {
      assert LeadingSpaces(r) == 0;
      assert TrailingSpaces(r) == 0;
      assert r[0..|r|] == r;
    }
  }

  /** `sub` occurs in `s` starting at position `i`. */
  predicate OccursAt(s: string, sub: string, i: int) {
    0 <= i && i + |sub| <= |s| && s[i..i + |sub|] == sub
  }

  /** `sub in s` for Python strings. */
  predicate Contains(s: string, sub: string) {
    exists i :: 0 <= i <= |s| && OccursAt(s, sub, i)
  }

  /** An occurrence of `sub` at a given position. */
  lemma ContainsAt(s: string, sub: string, i: nat)
    requires i + |sub| <= |s| && s[i..i + |sub|] == sub
    ensures Contains(s, sub)
  {
    assert OccursAt(s, sub, i);
  }

  /** A string that lacks the first character of `sub` does not contain `sub`. */
  lemma NotContains(s: string, sub: string)
    requires sub != [] && sub[0] !in s
    ensures !Contains(s, sub)
  {
    forall i | 0 <= i <= |s|
      ensures !OccursAt(s, sub, i)
    {
      if i + |sub| <= |s| {
        assert s[i..i + |sub|][0] == s[i];
      }
    }
  }

  /** Concatenation of a sequence of strings. */
  function Concat(parts: seq<string>): (r: string)
  {
    if parts == [] then [] else Concat(parts[..|parts| - 1]) + parts[|parts| - 1]
  }

  /** Python's `sep.join(parts)`. */
  function Join(parts: seq<string>, sep: string): (r: string)
  {
    if parts == [] then []
    else if |parts| == 1 then parts[0]
    else parts[0] + sep + Join(parts[1..], sep)
  }

  /** Python's `s.split(sep)` for a one-character separator: always at least one piece. */
  function Split(s: string, sep: char): (r: seq<string>)
    ensures |r| >= 1
    ensures forall k, i :: 0 <= k < |r| && 0 <= i < |r[k]| ==> r[k][i] != sep
    decreases |s|
  {
    if s == [] then [[]]
    else
      var rest := Split(s[1..], sep);
      if s[0] == sep then [[]] + rest else [[s[0]] + rest[0]] + rest[1..]
  }

  /** Splitting and re-joining with the same separator gives back the input. */
  lemma {:induction false} JoinSplit(s: string, sep: char)
    ensures Join(Split(s, sep), [sep]) == s
    decreases |s|
  {
    if s != [] {
      var rest := Split(s[1..], sep);
      JoinSplit(s[1..], sep);
      if s[0] == sep {
        assert Split(s, sep) == [[]] + rest;
        JoinCons([], rest, [sep]);
      } else {
        assert Split(s, sep) == [[s[0]] + rest[0]] + rest[1..];
        JoinHeadExtend(s[0], rest, [sep]);
      }
      assert s == [s[0]] + s[1..];
    }
  }

  lemma JoinCons(x: string, rest: seq<string>, sep: string)
    requires rest != []
    ensures Join([x] + rest, sep) == x + sep + Join(rest, sep)
  {
    assert ([x] + rest)[1..] == rest;
  }

  /** Prefixing a character to the first piece prefixes it to the joined text. */
  lemma JoinHeadExtend(c: char, rest: seq<string>, sep: string)
    requires rest != []
    ensures Join([[c] + rest[0]] + rest[1..], sep) == [c] + Join(rest, sep)
  {
    var r := [[c] + rest[0]] + rest[1..];
    if |rest| == 1 {
      assert r == [[c] + rest[0]];
    } else {
      assert r[1..] == rest[1..];
      assert Join(r, sep) == ([c] + rest[0]) + sep + Join(rest[1..], sep);
      assert Join(rest, sep) == rest[0] + sep + Join(rest[1..], sep);
    }
  }

  /** Joining one more piece adds the separator and the piece. */
  lemma {:induction false} JoinSnoc(parts: seq<string>, x: string, sep: string)
    requires parts != []
    ensures Join(parts + [x], sep) == Join(parts, sep) + sep + x
    decreases |parts|
  {
    if |parts| == 1 {
      assert parts + [x] == [parts[0], x];
      assert [parts[0], x][1..] == [x];
    } else {
      assert (parts + [x])[1..] == parts[1..] + [x];
      JoinSnoc(parts[1..], x, sep);
    }
  }

  /** A text without the separator is one piece. */
  lemma {:induction false} SplitNoSeparator(s: string, sep: char)
    requires forall i :: 0 <= i < |s| ==> s[i] != sep
    ensures Split(s, sep) == [s]
    decreases |s|
  {
    if s != [] {
      SplitNoSeparator(s[1..], sep);
      assert [s[0]] + s[1..] == s;
    }
  }

  /** Swift string interpolation of an `Int`: decimal digits, "-" before a negative value. */
  function DecimalString(n: int): string {
    if n < 0 then "-" + Digits(-n) else Digits(n)
  }

  function Digits(n: nat): string
    decreases n
  {
    var last := [(('0' as int) + n % 10) as char];
    if n < 10 then last else Digits(n / 10) + last
  }
}
