/** The optional value used for "at most one" results. */
module Wrappers {

  datatype Option<T> = None | Some(value: T)

  /** The list of messages a check hands to the host: empty or a single one. */
  function ToList<T>(o: Option<T>): (list: seq<T>)
    ensures |list| <= 1
    ensures |list| == 0 <==> o.None?
    ensures o.Some? ==> list[0] == o.value
  {
    match o
    case None => []
    case Some(v) => [v]
  }
}

/**
  The PHP string built-ins the naming rule relies on, on strings of characters:
  `$s{0}`, `substr`, `strtoupper`/`strtolower` (in the default "C" locale, so only
  ASCII letters change case), `strrpos`, `ltrim`/`rtrim`/`trim`, `explode`, and a
  `Join` that is the inverse of `explode`.
 */
module PhpStrings {
  import opened Wrappers

  predicate IsLowerAscii(c: char) { 'a' <= c <= 'z' }
  predicate IsUpperAscii(c: char) { 'A' <= c <= 'Z' }

  /** strtoupper on one character */
  function UpperChar(c: char): (u: char)
    ensures !IsLowerAscii(u)
    ensures u == c <==> !IsLowerAscii(c)
    ensures IsLowerAscii(c) ==> IsUpperAscii(u) && u as int + 32 == c as int
  {
    if IsLowerAscii(c) then (c as int - 32) as char else c
  }

  /** strtolower on one character */
  function LowerChar(c: char): (l: char)
    ensures !IsUpperAscii(l)
    ensures l == c <==> !IsUpperAscii(c)
    ensures IsUpperAscii(c) ==> IsLowerAscii(l) && l as int == c as int + 32
  {
    if IsUpperAscii(c) then (c as int + 32) as char else c
  }

  /** strtoupper */
  function StrToUpper(s: string): (r: string)
    ensures |r| == |s|
    ensures forall i :: 0 <= i < |s| ==> r[i] == UpperChar(s[i])
    decreases |s|
  {
    if |s| == 0 then "" else [UpperChar(s[0])] + StrToUpper(s[1..])
  }

  /** strtolower */
  function StrToLower(s: string): (r: string)
    ensures |r| == |s|
    ensures forall i :: 0 <= i < |s| ==> r[i] == LowerChar(s[i])
    decreases |s|
  {
    if |s| == 0 then "" else [LowerChar(s[0])] + StrToLower(s[1..])
  }

  /**
    `$s{0}`: the first character as a string. On the empty string PHP reads the
    empty string (and raises a notice, which is not modelled).
   */
  function FirstChar(s: string): (r: string)
    ensures |s| == 0 ==> r == ""
    ensures |s| > 0 ==> r == [s[0]]
  {
    if |s| == 0 then "" else s[..1]
  }

  /** `substr($s, 1)`: on the empty string PHP yields false, which concatenates as "". */
  function DropFirst(s: string): (r: string)
    ensures FirstChar(s) + r == s
  {
    if |s| == 0 then "" else s[1..]
  }

  /** `preg_match('|^p|', $s) !== 0` for a literal p */
  predicate StartsWith(s: string, p: string) {
    |p| <= |s| && s[..|p|] == p
  }

  /** `strrpos($s, $c)`: the position of the last occurrence of c, if any. */
  function Strrpos(s: string, c: char): (r: Option<nat>)
    ensures r.None? <==> c !in s
    ensures r.Some? ==> r.value < |s| && s[r.value] == c && c !in s[r.value + 1..]
    decreases |s|
  {
    if |s| == 0 then None
    else if s[|s| - 1] == c then Some(|s| - 1)
    else
      var r := Strrpos(s[..|s| - 1], c);
      assert r.Some? ==> s[r.value + 1..] == s[..|s| - 1][r.value + 1..] + [s[|s| - 1]];
      r
  }

  /** `ltrim($s, $chars)` */
  function LTrim(s: string, chars: set<char>): (r: string)
    ensures |r| <= |s| && r == s[|s| - |r|..]
    ensures forall i :: 0 <= i < |s| - |r| ==> s[i] in chars
    ensures r == [] || r[0] !in chars
    decreases |s|
  {
    if |s| > 0 && s[0] in chars then LTrim(s[1..], chars) else s
  }

  /** `rtrim($s, $chars)` */
  function RTrim(s: string, chars: set<char>): (r: string)
    ensures |r| <= |s| && r == s[..|r|]
    ensures forall i :: |r| <= i < |s| ==> s[i] in chars
    ensures r == [] || r[|r| - 1] !in chars
    decreases |s|
  {
    if |s| > 0 && s[|s| - 1] in chars then RTrim(s[..|s| - 1], chars) else s
  }

  /** The characters `trim` strips by default: " \t\n\r\0\x0B". */
  const TrimWhitespace: set<char> := {' ', '\t', '\n', '\r', '\0', '\U{B}'}

  /** Every character of s is one that `trim` strips. */
  predicate IsBlank(s: string) {
    forall i :: 0 <= i < |s| ==> s[i] in TrimWhitespace
  }

  /** `trim($s)`; it is empty exactly when s is blank. */
  function Trim(s: string): (r: string)
    ensures r == "" <==> IsBlank(s)
  {
    var l := LTrim(s, TrimWhitespace);
    assert l != "" ==> s[|s| - |l|] !in TrimWhitespace;
    RTrim(l, TrimWhitespace)
  }

  /** The inverse of `explode`: the parts with one separator between neighbours. */
  function Join(parts: seq<string>, sep: char): string
    decreases |parts|
  {
    if |parts| == 0 then ""
    else if |parts| == 1 then parts[0]
    else parts[0] + [sep] + Join(parts[1..], sep)
  }

  /**
    `explode($sep, $s)`: the maximal separator-free pieces of s, in order. Like PHP,
    the empty string explodes to one empty piece.
   */
  function Explode(sep: char, s: string): (parts: seq<string>)
    ensures |parts| >= 1
    ensures Join(parts, sep) == s
    ensures forall i :: 0 <= i < |parts| ==> sep !in parts[i]
    decreases |s|
  {
    if |s| == 0 then [""]
    else
      var rest := Explode(sep, s[1..]);
      if s[0] == sep then
        assert ([""] + rest)[1..] == rest;
        [""] + rest
      else
        var parts := [[s[0]] + rest[0]] + rest[1..];
        assert parts[1..] == rest[1..];
        assert |rest| > 1 ==> Join(rest, sep) == rest[0] + [sep] + Join(rest[1..], sep);
        parts
  }

  /** Splitting at the first separator: the piece before it comes first. */
  lemma {:induction false} ExplodeAtSeparator(sep: char, x: string, y: string)
    requires sep !in x
    ensures Explode(sep, x + [sep] + y) == [x] + Explode(sep, y)
    decreases |x|
  {
    if |x| == 0 {
      assert x + [sep] + y == [sep] + y;
      assert ([sep] + y)[1..] == y;
    } else {
      assert (x + [sep] + y)[1..] == x[1..] + [sep] + y;
      ExplodeAtSeparator(sep, x[1..], y);
      assert [x[0]] + x[1..] == x;
    }
  }

  /** A string without separator explodes to itself. */
  lemma {:induction false} ExplodeNoSeparator(sep: char, x: string)
    requires sep !in x
    ensures Explode(sep, x) == [x]
    decreases |x|
  {
    if |x| > 0 {
      ExplodeNoSeparator(sep, x[1..]);
      assert [x[0]] + x[1..] == x;
    }
  }

  /** `explode` undoes `Join` on separator-free parts: the two are inverse. */
  lemma {:induction false} ExplodeJoin(sep: char, parts: seq<string>)
    requires |parts| >= 1
    requires forall i :: 0 <= i < |parts| ==> sep !in parts[i]
    ensures Explode(sep, Join(parts, sep)) == parts
    decreases |parts|
  {
    if |parts| == 1 {
      ExplodeNoSeparator(sep, parts[0]);
    } else {
      ExplodeJoin(sep, parts[1..]);
      ExplodeAtSeparator(sep, parts[0], Join(parts[1..], sep));
    }
  }

  /** The first piece of a string that does not start with the separator starts like it. */
  lemma ExplodeFirstPiece(sep: char, s: string)
    requires |s| > 0 && s[0] != sep
    ensures |Explode(sep, s)[0]| > 0 && Explode(sep, s)[0][0] == s[0]
  {
  }
}
