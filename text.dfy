/**
 * The JavaScript string operations the screens use, stated over `string`
 * (a sequence of characters): the regular-expression character classes and
 * the `replace(/[^...]/g, '')` filters built on them, `replace` with a
 * one-character pattern, `trim`, `includes`, `split(sep).pop()`,
 * `filter(Boolean).join(sep)` and the truthiness of optional strings.
 */
module Text {
  import opened Wrappers

  /** `\d` in a regular expression without the `u` flag: ASCII digits only. */
  predicate IsDigit(c: char) {
    '0' <= c <= '9'
  }

  /** `\w`, i.e. `[a-zA-Z0-9_]`. */
  predicate IsWordChar(c: char) {
    'a' <= c <= 'z' || 'A' <= c <= 'Z' || IsDigit(c) || c == '_'
  }

  /** The characters `String.prototype.trim` removes: ECMAScript WhiteSpace and LineTerminator. */
  predicate IsSpace(c: char) {
    c == '\t' || c == '\n' || c == '\U{000B}' || c == '\U{000C}' || c == '\r' || c == ' '
    || c == '\U{00A0}' || c == '\U{1680}' || ('\U{2000}' <= c <= '\U{200A}')
    || c == '\U{2028}' || c == '\U{2029}' || c == '\U{202F}' || c == '\U{205F}'
    || c == '\U{3000}' || c == '\U{FEFF}'
  }

  /** The character classes the screens filter input with. */
  datatype CharClass =
    | Digit      // \d
    | Word       // [a-zA-Z0-9_]
    | AliasChar  // [@a-zA-Z0-9_]

  predicate InClass(cls: CharClass, c: char) {
    match cls
    case Digit => IsDigit(c)
    case Word => IsWordChar(c)
    case AliasChar => c == '@' || IsWordChar(c)
  }

  predicate AllIn(cls: CharClass, s: string) {
    forall i :: 0 <= i < |s| ==> InClass(cls, s[i])
  }

  /** `s.replace(/[^cls]/g, '')`: the characters of `s` in `cls`, in order. */
  function Keep(cls: CharClass, s: string): (r: string)
    ensures AllIn(cls, r)
    ensures |r| <= |s|
  {
    if s == [] then []
    else if InClass(cls, s[0]) then [s[0]] + Keep(cls, s[1..])
    else Keep(cls, s[1..])
  }

  /** `s.replace(/\D/g, '')`. */
  function Digits(s: string): string {
    Keep(Digit, s)
  }

  /** A string already in the class is left as it is. */
  lemma {:induction false} KeepAllIn(cls: CharClass, s: string)
    requires AllIn(cls, s)
    ensures Keep(cls, s) == s
  {
    if s != [] {
      assert AllIn(cls, s[1..]) by {
        forall i | 0 <= i < |s[1..]| ensures InClass(cls, s[1..][i]) {
          assert s[1..][i] == s[i + 1];
        }
      }
      KeepAllIn(cls, s[1..]);
    }
  }

  lemma KeepIdempotent(cls: CharClass, s: string)
    ensures Keep(cls, Keep(cls, s)) == Keep(cls, s)
  {
    KeepAllIn(cls, Keep(cls, s));
  }

  lemma {:induction false} KeepConcat(cls: CharClass, a: string, b: string)
    ensures Keep(cls, a + b) == Keep(cls, a) + Keep(cls, b)
  {
    if a == [] {
      assert a + b == b;
    } else {
      assert (a + b)[0] == a[0];
      assert (a + b)[1..] == a[1..] + b;
      KeepConcat(cls, a[1..], b);
    }
  }

  /** Every character in the class survives the filter, as often as it occurs. */
  lemma {:induction false} KeepCount(cls: CharClass, s: string, c: char)
    requires InClass(cls, c)
    ensures multiset(Keep(cls, s))[c] == multiset(s)[c]
  {
    if s != [] {
      assert s == [s[0]] + s[1..];
      KeepCount(cls, s[1..], c);
    }
  }

  /** Filtering by a wider class first changes nothing for a narrower one. */
  lemma {:induction false} KeepNarrower(narrow: CharClass, wide: CharClass, s: string)
    requires forall c :: InClass(narrow, c) ==> InClass(wide, c)
    ensures Keep(narrow, Keep(wide, s)) == Keep(narrow, s)
  {
    if s != [] {
      KeepNarrower(narrow, wide, s[1..]);
    }
  }

  predicate StartsWith(s: string, c: char) {
    |s| > 0 && s[0] == c
  }

  /** `s.indexOf(c)`, with |s| for "not found". */
  function IndexOf(s: string, c: char): (i: nat)
    ensures i <= |s|
    ensures i < |s| ==> s[i] == c
    ensures forall j :: 0 <= j < i ==> s[j] != c
  {
    if s == [] then 0
    else if s[0] == c then 0
    else 1 + IndexOf(s[1..], c)
  }

  /** `s.replace(c, '')` with a string pattern: only the first occurrence of `c` is removed. */
  function RemoveFirst(s: string, c: char): (r: string)
    ensures c !in s ==> r == s
    ensures c in s ==> |r| == |s| - 1 && multiset(r) == multiset(s) - multiset{c}
  {
    var i := IndexOf(s, c);
    if i < |s| then
      assert s == s[..i] + [s[i]] + s[i + 1..];
      s[..i] + s[i + 1..]
    else s
  }

  /** A leading occurrence is the one `RemoveFirst` takes. */
  lemma RemoveFirstLeading(s: string, c: char)
    requires StartsWith(s, c)
    ensures RemoveFirst(s, c) == s[1..]
  {
  }

  /** Removing the first occurrence of a character outside the class leaves the filtered string alone. */
  lemma RemoveFirstKeep(cls: CharClass, s: string, c: char)
    requires !InClass(cls, c)
    ensures Keep(cls, RemoveFirst(s, c)) == Keep(cls, s)
  {
    var i := IndexOf(s, c);
    if i < |s| {
      assert s == s[..i] + ([s[i]] + s[i + 1..]);
      KeepConcat(cls, s[..i], [s[i]] + s[i + 1..]);
      KeepConcat(cls, [s[i]], s[i + 1..]);
      KeepConcat(cls, s[..i], s[i + 1..]);
    }
  }

  predicate AllSpace(s: string) {
    forall i :: 0 <= i < |s| ==> IsSpace(s[i])
  }

  /** `s.trimStart()`: the suffix left after the leading whitespace. */
  function TrimStart(s: string): (r: string)
    ensures |r| <= |s|
  {
    if s != [] && IsSpace(s[0]) then TrimStart(s[1..]) else s
  }

  /** What `TrimStart` removes is whitespace, and what it keeps is a suffix not starting with whitespace. */
  lemma {:induction false} TrimStartShape(s: string)
    ensures var r := TrimStart(s);
            && r == s[|s| - |r|..]
            && (r == [] || !IsSpace(r[0]))
            && AllSpace(s[..|s| - |r|])
  {
    if s != [] && IsSpace(s[0]) {
      TrimStartShape(s[1..]);
      var r := TrimStart(s);
      assert s[1..][|s[1..]| - |r|..] == s[|s| - |r|..];
      forall i | 0 <= i < |s| - |r| ensures IsSpace(s[i]) {
        if i > 0 {
          assert s[i] == s[1..][..|s[1..]| - |r|][i - 1];
        }
      }
    }
  }

  /** `s.trimEnd()`: the prefix left before the trailing whitespace. */
  function TrimEnd(s: string): (r: string)
    ensures |r| <= |s|
  {
    if s != [] && IsSpace(s[|s| - 1]) then TrimEnd(s[..|s| - 1]) else s
  }

  /** What `TrimEnd` removes is whitespace, and what it keeps is a prefix not ending with whitespace. */
  lemma {:induction false} TrimEndShape(s: string)
    ensures var r := TrimEnd(s);
            && r == s[..|r|]
            && (r == [] || !IsSpace(r[|r| - 1]))
            && AllSpace(s[|r|..])
  {
    if s != [] && IsSpace(s[|s| - 1]) {
      var t := s[..|s| - 1];
      TrimEndShape(t);
      var r := TrimEnd(s);
      assert t[..|r|] == s[..|r|];
      forall i | |r| <= i < |s| ensures IsSpace(s[i]) {
        if i < |s| - 1 {
          assert s[i] == t[|r|..][i - |r|];
        }
      }
    }
  }

  /** `s.trim()`. */
  function Trim(s: string): string {
    TrimEnd(TrimStart(s))
  }

  /** `!s.trim()` holds exactly of the strings made only of whitespace. */
  lemma TrimBlank(s: string)
    ensures Trim(s) == [] <==> AllSpace(s)
  {
    var t := TrimStart(s);
    TrimStartShape(s);
    TrimEndShape(t);
    if Trim(s) == [] {
      assert AllSpace(t[0..]);
      assert s[..|s|] == s;
    }
  }

  /** The trimmed string neither starts nor ends with whitespace. */
  lemma TrimEnds(s: string)
    ensures Trim(s) == [] || (!IsSpace(Trim(s)[0]) && !IsSpace(Trim(s)[|Trim(s)| - 1]))
  {
    var t := TrimStart(s);
    var r := TrimEnd(t);
    TrimStartShape(s);
    TrimEndShape(t);
    if r != [] {
      assert r[0] == t[0];
    }
  }

  /** `s.includes(sub)`: `sub` occurs in `s` at some position. */
  predicate Includes(s: string, sub: string) {
    |sub| <= |s| && (s[..|sub|] == sub || Includes(s[1..], sub))
  }

  /** An occurrence at position `i` is enough for `Includes`. */
  lemma {:induction false} IncludesAt(s: string, sub: string, i: nat)
    requires i + |sub| <= |s| && s[i..i + |sub|] == sub
    ensures Includes(s, sub)
  {
    if i > 0 {
      assert s[1..][i - 1..i - 1 + |sub|] == s[i..i + |sub|];
      IncludesAt(s[1..], sub, i - 1);
    }
  }

  /** `s.split(sep).pop()`: everything after the last `sep`, or all of `s` when it has none. */
  function LastSegment(s: string, sep: char): (r: string)
    ensures |r| <= |s| && r == s[|s| - |r|..]
    ensures sep !in r
    ensures |r| < |s| ==> s[|s| - |r| - 1] == sep
  {
    if s == [] then []
    else if s[|s| - 1] == sep then []
    else LastSegment(s[..|s| - 1], sep) + [s[|s| - 1]]
  }

  /** The longest suffix of `s` made of word characters. */
  function TrailingWord(s: string): (r: string)
    ensures |r| <= |s| && r == s[|s| - |r|..]
    ensures AllIn(Word, r)
    ensures |r| < |s| ==> !IsWordChar(s[|s| - |r| - 1])
  {
    if s == [] then []
    else if !IsWordChar(s[|s| - 1]) then []
    else TrailingWord(s[..|s| - 1]) + [s[|s| - 1]]
  }

  /** `parts.filter(Boolean)`: the non-empty strings, in order. */
  function NonEmpty(parts: seq<string>): (r: seq<string>)
    ensures |r| <= |parts|
    ensures forall i :: 0 <= i < |r| ==> r[i] != []
  {
    if parts == [] then []
    else if parts[0] == [] then NonEmpty(parts[1..])
    else [parts[0]] + NonEmpty(parts[1..])
  }

  /** `parts.join(sep)`. */
  function Join(parts: seq<string>, sep: string): string {
    if parts == [] then ""
    else if |parts| == 1 then parts[0]
    else parts[0] + sep + Join(parts[1..], sep)
  }

  /** JavaScript truthiness of an optional string: present and non-empty. */
  predicate Truthy(s: Option<string>) {
    s.Some? && s.value != ""
  }

  /** `s || fallback` for an optional string. */
  function Or(s: Option<string>, fallback: string): (r: string)
    ensures Truthy(s) ==> r == s.value
    ensures !Truthy(s) ==> r == fallback
  {
    if Truthy(s) then s.value else fallback
  }

  /** `a || b` for two optional strings: the first truthy one, else `b` as it is. */
  function OrElse(a: Option<string>, b: Option<string>): Option<string> {
    if Truthy(a) then a else b
  }

  /** How a template literal renders an optional string: an absent value prints as "undefined". */
  function Render(s: Option<string>): string {
    s.GetOr("undefined")
  }

  /** ASCII `toUpperCase` of one character. */
  function UpperAscii(c: char): (r: char)
    ensures 'a' <= c <= 'z' ==> 'A' <= r <= 'Z' && r as int - c as int == 'A' as int - 'a' as int
    ensures !('a' <= c <= 'z') ==> r == c
  {
    if 'a' <= c <= 'z' then (c as int - 'a' as int + 'A' as int) as char else c
  }
}
