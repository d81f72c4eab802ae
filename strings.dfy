/**
 * String primitives shared by the Java, Python and JavaScript parts of the system:
 * prefix and suffix tests, character and substring search, splitting on one
 * separator (with each language's treatment of empty fields), ASCII case
 * mapping and Python's whitespace stripping and line splitting.
 */
module Strings {

  predicate StartsWith(s: string, p: string)
  {
    |p| <= |s| && s[..|p|] == p
  }

  predicate EndsWith(s: string, p: string)
  {
    |p| <= |s| && s[|s| - |p|..] == p
  }

  /** `t` occurs in `s` at index `i`. */
  predicate OccursAt(s: string, t: string, i: int)
  {
    0 <= i && i + |t| <= |s| && s[i..i + |t|] == t
  }

  predicate Contains(s: string, t: string)
  {
    exists i :: 0 <= i <= |s| && OccursAt(s, t, i)
  }

  /** Java `indexOf(char)`: the first index of `c`, or -1. */
  function IndexOf(s: string, c: char): (r: int)
    ensures -1 <= r < |s|
    ensures r == -1 <==> c !in s
    ensures r >= 0 ==> s[r] == c && c !in s[..r]
  {
    if |s| == 0 then -1
    else if s[0] == c then 0
    else
      var k := IndexOf(s[1..], c);
      if k < 0 then assert s == [s[0]] + s[1..]; -1
      else assert s[..k + 1] == [s[0]] + s[1..][..k]; 1 + k
  }

  /** Java `lastIndexOf(char)`: the last index of `c`, or -1. */
  function LastIndexOf(s: string, c: char): (r: int)
    ensures -1 <= r < |s|
    ensures r == -1 <==> c !in s
    ensures r >= 0 ==> s[r] == c && c !in s[r + 1..]
  {
    if |s| == 0 then -1
    else if s[|s| - 1] == c then |s| - 1
    else
      var k := LastIndexOf(s[..|s| - 1], c);
      if k < 0 then assert s == s[..|s| - 1] + [s[|s| - 1]]; -1
      else assert s[k + 1..] == s[..|s| - 1][k + 1..] + [s[|s| - 1]]; k
  }

  /** Python `str.rfind(t)`: the last index at which `t` occurs, or -1. */
  function RFind(s: string, t: string): (r: int)
    ensures -1 <= r <= |s|
    ensures r >= 0 ==> OccursAt(s, t, r)
    ensures forall j :: r < j <= |s| ==> !OccursAt(s, t, j)
    decreases |s|
  {
    if OccursAt(s, t, |s| - |t|) then |s| - |t|
    else RFindBelow(s, t, |s| - |t|)
  }

  /** The last occurrence of `t` in `s` at an index below `hi`, or -1. */
  function RFindBelow(s: string, t: string, hi: int): (r: int)
    ensures -1 <= r < hi || (r == -1 && hi <= -1)
    ensures r >= 0 ==> OccursAt(s, t, r)
    ensures forall j :: r < j < hi ==> !OccursAt(s, t, j)
    decreases if hi < 0 then 0 else hi
  {
    if hi <= 0 then -1
    else if OccursAt(s, t, hi - 1) then hi - 1
    else RFindBelow(s, t, hi - 1)
  }

  /** ASCII lower case, as Java/JavaScript/Python apply it to the identifiers, flags and hex digits here. */
  function LowerChar(c: char): char
  {
    if 'A' <= c <= 'Z' then (c as int + 32) as char else c
  }

  function UpperChar(c: char): char
  {
    if 'a' <= c <= 'z' then (c as int - 32) as char else c
  }

  function Lower(s: string): (r: string)
    ensures |r| == |s|
    ensures forall i :: 0 <= i < |s| ==> r[i] == LowerChar(s[i])
  {
    if |s| == 0 then "" else [LowerChar(s[0])] + Lower(s[1..])
  }

  function Upper(s: string): (r: string)
    ensures |r| == |s|
    ensures forall i :: 0 <= i < |s| ==> r[i] == UpperChar(s[i])
  {
    if |s| == 0 then "" else [UpperChar(s[0])] + Upper(s[1..])
  }

  lemma LowerIdempotent(s: string)
    ensures Lower(Lower(s)) == Lower(s)
  {
  }

  /** Two strings are equal ignoring ASCII case. */
  predicate EqualsIgnoreCase(a: string, b: string)
  {
    Lower(a) == Lower(b)
  }

  /** Replaces every `from` character by `to`, as Java `replace(char, char)`. */
  function ReplaceChar(s: string, from: char, to: char): (r: string)
    ensures |r| == |s|
    ensures forall i :: 0 <= i < |s| ==> r[i] == (if s[i] == from then to else s[i])
  {
    if |s| == 0 then "" else [if s[0] == from then to else s[0]] + ReplaceChar(s[1..], from, to)
  }

  // ---------------------------------------------------------------------------
  // Splitting on one separator character.

  /**
   * All fields between occurrences of `sep`, empty ones included: Python `str.split(sep)`
   * and JavaScript `String.prototype.split(sep)` for a one-character separator.
   */
  function Fields(s: string, sep: char): (r: seq<string>)
    ensures |r| >= 1
  {
    if |s| == 0 then [""]
    else
      var rest := Fields(s[1..], sep);
      if s[0] == sep then [""] + rest else [[s[0]] + rest[0]] + rest[1..]
  }

  /** The inverse of `Fields`: the fields separated by `sep`. */
  function Join(fs: seq<string>, sep: char): string
  {
    if |fs| == 0 then ""
    else if |fs| == 1 then fs[0]
    else fs[0] + [sep] + Join(fs[1..], sep)
  }

  function Count(s: string, c: char): nat
  {
    if |s| == 0 then 0 else (if s[0] == c then 1 else 0) + Count(s[1..], c)
  }

  lemma {:induction false} FieldsFacts(s: string, sep: char)
    ensures Join(Fields(s, sep), sep) == s
    ensures |Fields(s, sep)| == Count(s, sep) + 1
    ensures forall f :: f in Fields(s, sep) ==> sep !in f
  {
    if |s| > 0 {
      FieldsFacts(s[1..], sep);
      var rest := Fields(s[1..], sep);
      if s[0] == sep {
        assert s == [sep] + s[1..];
      } else {
        assert s == [s[0]] + s[1..];
        var r := Fields(s, sep);
        assert r[1..] == rest[1..];
        forall f | f in r ensures sep !in f {
          if f != r[0] { assert f in rest[1..]; }
        }
      }
    }
  }

  /** Splitting the join of separator-free fields gives the fields back. */
  lemma {:induction false} FieldsOfJoin(fs: seq<string>, sep: char)
    requires |fs| >= 1
    requires forall f :: f in fs ==> sep !in f
    ensures Fields(Join(fs, sep), sep) == fs
  {
    if |fs| == 1 {
      FieldsOfFree(fs[0], sep);
    } else {
      FieldsOfJoin(fs[1..], sep);
      FieldsPrefix(fs[0], Join(fs[1..], sep), sep);
    }
  }

  lemma {:induction false} FieldsOfFree(s: string, sep: char)
    requires sep !in s
    ensures Fields(s, sep) == [s]
  {
    if |s| > 0 {
      FieldsOfFree(s[1..], sep);
      assert s == [s[0]] + s[1..];
    }
  }

  lemma {:induction false} FieldsPrefix(a: string, b: string, sep: char)
    requires sep !in a
    ensures Fields(a + [sep] + b, sep) == [a] + Fields(b, sep)
  {
    if |a| == 0 {
      assert a + [sep] + b == [sep] + b;
      assert ([sep] + b)[1..] == b;
    } else {
      FieldsPrefix(a[1..], b, sep);
      assert (a + [sep] + b)[1..] == a[1..] + [sep] + b;
      assert [a[0]] + a[1..] == a;
    }
  }

  /** A separator-free last piece becomes the last field. */
  lemma {:induction false} FieldsSuffix(a: string, b: string, sep: char)
    requires sep !in b
    ensures Fields(a + [sep] + b, sep) == Fields(a, sep) + [b]
  {
    if |a| == 0 {
      assert a + [sep] + b == [sep] + b;
      assert ([sep] + b)[1..] == b;
      FieldsOfFree(b, sep);
    } else {
      FieldsSuffix(a[1..], b, sep);
      assert (a + [sep] + b)[1..] == a[1..] + [sep] + b;
      var rest := Fields(a[1..], sep);
      if a[0] != sep {
        assert (rest + [b])[1..] == rest[1..] + [b];
      }
    }
  }

  /** The first field is the text before the first separator. */
  lemma FieldsHead(s: string, sep: char)
    requires sep in s
    ensures Fields(s, sep)[0] == s[..IndexOf(s, sep)]
  {
    var i := IndexOf(s, sep);
    assert s == s[..i] + [sep] + s[i + 1..];
    FieldsPrefix(s[..i], s[i + 1..], sep);
  }

  /** With a separator there are at least two fields, the last being the text after the last separator. */
  lemma FieldsLast(s: string, sep: char)
    requires sep in s
    ensures |Fields(s, sep)| >= 2
    ensures Fields(s, sep)[|Fields(s, sep)| - 1] == s[LastIndexOf(s, sep) + 1..]
  {
    var j := LastIndexOf(s, sep);
    assert s == s[..j] + [sep] + s[j + 1..];
    FieldsSuffix(s[..j], s[j + 1..], sep);
  }

  /** Drops empty strings from the end, as Java `String.split` does with its default limit. */
  function DropTrailingEmpty(fs: seq<string>): (r: seq<string>)
    ensures |r| <= |fs| && r == fs[..|r|]
    ensures |r| > 0 ==> r[|r| - 1] != ""
    ensures forall i :: |r| <= i < |fs| ==> fs[i] == ""
  {
    if |fs| == 0 then []
    else if fs[|fs| - 1] == "" then DropTrailingEmpty(fs[..|fs| - 1])
    else fs
  }

  /**
   * Java `s.split(regex)` for a regex matching the single character `sep`: the input
   * itself when `sep` does not occur, otherwise the fields without trailing empty ones.
   */
  function JavaSplit(s: string, sep: char): seq<string>
  {
    if sep !in s then [s] else DropTrailingEmpty(Fields(s, sep))
  }

  /**
   * Java `String.replace(CharSequence, CharSequence)`: the occurrences of `from` found
   * scanning left to right, without overlap, each replaced by `to`.
   */
  function ReplaceAll(s: string, from: string, to: string): string
    requires |from| > 0
  {
    if |s| == 0 then ""
    else if StartsWith(s, from) then to + ReplaceAll(s[|from|..], from, to)
    else [s[0]] + ReplaceAll(s[1..], from, to)
  }

  /** Replacing a character by text without it leaves no occurrence of the character. */
  lemma {:induction false} ReplaceRemovesChar(s: string, c: char, to: string)
    requires c !in to
    ensures c !in ReplaceAll(s, [c], to)
  {
    if |s| > 0 {
      ReplaceRemovesChar(s[1..], c, to);
      if !StartsWith(s, [c]) {
        assert s[..1] == [s[0]];
      }
    }
  }

  /** A character in neither the text nor the replacement does not appear. */
  lemma {:induction false} ReplaceKeepsAbsentChar(s: string, from: string, to: string, c: char)
    requires |from| > 0 && c !in s && c !in to
    ensures c !in ReplaceAll(s, from, to)
  {
    if |s| > 0 {
      if StartsWith(s, from) {
        assert c !in s[|from|..] by {
          forall i | 0 <= i < |s[|from|..]| ensures s[|from|..][i] != c {
            assert s[|from|..][i] == s[|from| + i];
          }
        }
        ReplaceKeepsAbsentChar(s[|from|..], from, to, c);
      } else {
        assert s == [s[0]] + s[1..];
        ReplaceKeepsAbsentChar(s[1..], from, to, c);
      }
    }
  }

  /** The decimal text of an integer, as Java's string concatenation renders a `long`. */
  function IntText(n: int): (r: string)
    ensures |r| >= 1
    ensures n < 0 <==> r[0] == '-'
  {
    if n < 0 then "-" + Decimal(-n) else Decimal(n)
  }

  // ---------------------------------------------------------------------------
  // Python whitespace and lines.

  /** The characters Python's `str.isspace` accepts. */
  predicate IsPySpace(c: char)
  {
    var n := c as int;
    n == 0x20 || 0x09 <= n <= 0x0d || 0x1c <= n <= 0x1f || n == 0x85 || n == 0xa0 || n == 0x1680
    || 0x2000 <= n <= 0x200a || n == 0x2028 || n == 0x2029 || n == 0x202f || n == 0x205f || n == 0x3000
  }

  function StripStart(s: string): (r: string)
    ensures |r| <= |s| && r == s[|s| - |r|..]
    ensures |r| > 0 ==> !IsPySpace(r[0])
    ensures forall i :: 0 <= i < |s| - |r| ==> IsPySpace(s[i])
  {
    if |s| > 0 && IsPySpace(s[0]) then StripStart(s[1..]) else s
  }

  function StripEnd(s: string): (r: string)
    ensures |r| <= |s| && r == s[..|r|]
    ensures |r| > 0 ==> !IsPySpace(r[|r| - 1])
    ensures forall i :: |r| <= i < |s| ==> IsPySpace(s[i])
  {
    if |s| > 0 && IsPySpace(s[|s| - 1]) then StripEnd(s[..|s| - 1]) else s
  }

  /** Python `str.strip()`: leading and trailing whitespace removed. */
  function Strip(s: string): (r: string)
    ensures |r| <= |s|
    ensures |r| > 0 ==> !IsPySpace(r[0]) && !IsPySpace(r[|r| - 1])
    ensures r == "" <==> forall i :: 0 <= i < |s| ==> IsPySpace(s[i])
  {
    var t := StripStart(s);
    var r := StripEnd(t);
    assert r == "" ==> forall i :: 0 <= i < |s| ==> IsPySpace(s[i]) by {
      if r == "" {
        assert |t| == 0;
      }
    }
    assert (forall i :: 0 <= i < |s| ==> IsPySpace(s[i])) ==> r == "" by {
      if |r| > 0 { assert r[0] == t[0] == s[|s| - |t|]; }
    }
    r
  }

  /** Line boundaries recognised by Python `str.splitlines`. */
  predicate IsLineBreak(c: char)
  {
    var n := c as int;
    0x0a <= n <= 0x0d || 0x1c <= n <= 0x1e || n == 0x85 || n == 0x2028 || n == 0x2029
  }

  /** Text holding no line boundary. */
  predicate NoBreak(s: string)
  {
    forall i | 0 <= i < |s| :: !IsLineBreak(s[i])
  }

  /**
   * Python `str.splitlines()`: the lines without their terminators, "\r\n" counting as one
   * terminator, and no empty last line after a final terminator.
   */
  function SplitLines(s: string): (r: seq<string>)
    ensures forall j | 0 <= j < |r| :: NoBreak(r[j])
    decreases |s|
  {
    if |s| == 0 then []
    else
      var k := FirstBreak(s, 0);
      if k == |s| then [s]
      else
        var skip := if s[k] == '\r' && k + 1 < |s| && s[k + 1] == '\n' then 2 else 1;
        [s[..k]] + SplitLines(s[k + skip..])
  }

  /** The index of the first line break at or after `i`, or |s|. */
  function FirstBreak(s: string, i: nat): (k: nat)
    requires i <= |s|
    ensures i <= k <= |s|
    ensures k < |s| ==> IsLineBreak(s[k])
    ensures forall j :: i <= j < k ==> !IsLineBreak(s[j])
    decreases |s| - i
  {
    if i == |s| || IsLineBreak(s[i]) then i else FirstBreak(s, i + 1)
  }

  // ---------------------------------------------------------------------------
  // Numbers as text.

  function DigitChar(d: nat): char
    requires d < 10
  {
    ('0' as int + d) as char
  }

  /** The decimal rendering of a natural number, as Java's `String.valueOf(long)` writes it. */
  function Decimal(n: nat): (r: string)
    ensures |r| >= 1
    ensures forall i :: 0 <= i < |r| ==> '0' <= r[i] <= '9'
  {
    if n < 10 then [DigitChar(n)] else Decimal(n / 10) + [DigitChar(n % 10)]
  }

  // ---------------------------------------------------------------------------
  // Sequences of strings.

  /** The elements in first-occurrence order, each once. */
  function Dedup(xs: seq<string>): seq<string>
  {
    if |xs| == 0 then [] else
      var d := Dedup(xs[..|xs| - 1]);
      if xs[|xs| - 1] in xs[..|xs| - 1] then d else d + [xs[|xs| - 1]]
  }

  lemma {:induction false} DedupMembers(xs: seq<string>)
    ensures forall x :: x in Dedup(xs) <==> x in xs
  {
    if |xs| > 0 {
      DedupMembers(xs[..|xs| - 1]);
      assert xs == xs[..|xs| - 1] + [xs[|xs| - 1]];
    }
  }
}
