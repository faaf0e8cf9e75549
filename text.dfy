/**
  String operations the clients rely on: lower-casing, substring search, character
  counting, whitespace splitting and decimal rendering. Case mapping is that of ASCII
  (the Unicode case tables of Python and JavaScript are not modelled); whitespace is
  Python's full `str.isspace()` set.
*/
module Text {

  /** ASCII lower-casing of one character. */
  function LowerChar(c: char): char {
    if 'A' <= c <= 'Z' then (c as int + 32) as char else c
  }

  /** `s.lower()` / `s.toLowerCase()` over ASCII. */
  function Lower(s: string): (r: string)
    ensures |r| == |s|
    ensures forall i :: 0 <= i < |s| ==> r[i] == LowerChar(s[i])
  {
    seq(|s|, i requires 0 <= i < |s| => LowerChar(s[i]))
  }

  /** Lower-casing twice is lower-casing once. */
  lemma LowerIdempotent(s: string)
    ensures Lower(Lower(s)) == Lower(s)
  {
    forall i | 0 <= i < |s|
      ensures Lower(Lower(s))[i] == Lower(s)[i]
    {
      assert LowerChar(LowerChar(s[i])) == LowerChar(s[i]);
    }
  }

  /** `s.startswith(p)`. */
  predicate StartsWith(s: string, p: string) {
    |p| <= |s| && s[..|p|] == p
  }

  /** Python `sub in s` / JavaScript `s.includes(sub)`: `sub` occurs at some position of `s`. */
  predicate Contains(s: string, sub: string)
    decreases |s|
  {
    StartsWith(s, sub) || (|s| > 0 && Contains(s[1..], sub))
  }

  /** A one-character substring occurs exactly when the character does. */
  lemma {:induction false} ContainsChar(s: string, c: char)
    ensures Contains(s, [c]) <==> c in s
    decreases |s|
  {
    if s != [] {
      ContainsChar(s[1..], c);
      assert s == [s[0]] + s[1..];
    }
  }

  /** Lower-casing neither adds nor removes a character that is not an upper-case letter. */
  lemma LowerKeeps(s: string, c: char)
    requires !('A' <= c <= 'Z') && !('a' <= c <= 'z')
    ensures c in Lower(s) <==> c in s
  {
    if c in s {
      var i :| 0 <= i < |s| && s[i] == c;
      assert Lower(s)[i] == c;
    }
    if c in Lower(s) {
      var i :| 0 <= i < |s| && Lower(s)[i] == c;
      assert s[i] == c;
    }
  }

  /** `s.count(c)` for a single character `c`. */
  function CountChar(s: string, c: char): (n: nat)
    ensures n <= |s|
    ensures n == 0 <==> c !in s
  {
    if s == [] then 0 else (if s[0] == c then 1 else 0) + CountChar(s[1..], c)
  }

  /** An occurrence of `c c c` means at least three occurrences of `c`. */
  lemma {:induction false} TripleImpliesCount(s: string, c: char)
    requires Contains(s, [c, c, c])
    ensures CountChar(s, c) >= 3
  {
    if StartsWith(s, [c, c, c]) {
      assert s[0] == c && s[1] == c && s[2] == c;
      assert CountChar(s, c) == 1 + CountChar(s[1..], c);
      assert CountChar(s[1..], c) == 1 + CountChar(s[2..], c);
      assert s[2..][0] == c;
      assert CountChar(s[2..], c) >= 1;
    } else {
      TripleImpliesCount(s[1..], c);
    }
  }

  /**
    The characters `str.split()` and `str.strip()` treat as whitespace: the ASCII
    controls tab to carriage return and the separators 0x1C to 0x1F, the space, NEL,
    no-break space, and the Unicode space and line/paragraph separators.
  */
  predicate IsSpace(c: char) {
    ('\t' <= c <= '\r') || ('\U{1C}' <= c <= ' ')
    || c == '\U{85}' || c == '\U{A0}' || c == '\U{1680}'
    || ('\U{2000}' <= c <= '\U{200A}') || c == '\U{2028}' || c == '\U{2029}'
    || c == '\U{202F}' || c == '\U{205F}' || c == '\U{3000}'
  }

  /** The rest of `s` after its leading run of non-space characters. */
  function DropWord(s: string): (r: string)
    ensures |r| <= |s|
    ensures r == [] || IsSpace(r[0])
    decreases |s|
  {
    if s == [] || IsSpace(s[0]) then s else DropWord(s[1..])
  }

  /** `len(s.split())`: the number of maximal runs of non-space characters. */
  function WordCount(s: string): (n: nat)
    ensures n <= |s|
    decreases |s|
  {
    if s == [] then 0
    else if IsSpace(s[0]) then WordCount(s[1..])
    else 1 + WordCount(DropWord(s[1..]))
  }

  /** A string with no non-space character has no words, and conversely. */
  lemma {:induction false} WordCountZero(s: string)
    ensures WordCount(s) == 0 <==> forall i :: 0 <= i < |s| ==> IsSpace(s[i])
    decreases |s|
  {
    if s != [] {
      WordCountZero(s[1..]);
      if IsSpace(s[0]) {
        assert forall i :: 1 <= i < |s| ==> s[i] == s[1..][i - 1];
      }
    }
  }

  /** Dropping the first word of `a + b`: the tail of `a`'s drop, or `b`'s when `a` is one word. */
  lemma {:induction false} DropWordAppend(a: string, b: string)
    ensures DropWord(a) != [] ==> DropWord(a + b) == DropWord(a) + b
    ensures DropWord(a) == [] ==> DropWord(a + b) == DropWord(b)
    decreases |a|
  {
    if a != [] && !IsSpace(a[0]) {
      assert (a + b)[1..] == a[1..] + b;
      DropWordAppend(a[1..], b);
    } else if a == [] {
      assert a + b == b;
    }
  }

  /** Appending text never lowers the word count: a word can only grow or be followed by more. */
  lemma {:induction false} WordCountAppend(a: string, b: string)
    ensures WordCount(a + b) >= WordCount(a)
    decreases |a|
  {
    if a != [] {
      assert (a + b)[1..] == a[1..] + b;
      if IsSpace(a[0]) {
        WordCountAppend(a[1..], b);
      } else {
        DropWordAppend(a[1..], b);
        var d := DropWord(a[1..]);
        if d != [] {
          WordCountAppend(d, b);
        }
      }
    }
  }

  /** The decimal rendering of a natural number, as template strings and f-strings print it. */
  function NatToString(n: nat): (r: string)
    ensures |r| >= 1
    ensures forall i :: 0 <= i < |r| ==> '0' <= r[i] <= '9'
  {
    if n < 10 then [Digit(n)] else NatToString(n / 10) + [Digit(n % 10)]
  }

  function Digit(d: nat): (c: char)
    requires d < 10
    ensures '0' <= c <= '9'
  {
    ("0123456789")[d]
  }

  /** The quote `repr` picks: double quotes when `s` holds `'` but no `"`, single quotes otherwise. */
  function ReprQuote(s: string): (q: char)
    ensures q == '\'' || q == '"'
    ensures q == '"' <==> '\'' in s && '"' !in s
  {
    if '\'' in s && '"' !in s then '"' else '\''
  }

  /** A character `repr` shows as itself whichever quote it picks. */
  predicate ReprPlain(c: char) {
    ' ' <= c && c != '\'' && c != '"' && c != '\\' && c != '\U{7F}'
  }

  /** One character inside a `repr` quoted with `q`. */
  function ReprChar(c: char, q: char): (r: string)
    requires q == '\'' || q == '"'
    ensures ReprPlain(c) ==> r == [c]
    ensures |r| >= 1
  {
    if c == q || c == '\\' then ['\\', c]
    else if c == '\t' then "\\t"
    else if c == '\n' then "\\n"
    else if c == '\r' then "\\r"
    else if c < ' ' || c == '\U{7F}' then "\\x" + [HexDigit(c as int / 16), HexDigit(c as int % 16)]
    else [c]
  }

  function HexDigit(d: nat): char
    requires d < 16
  {
    ("0123456789abcdef")[d]
  }

  /** The characters of `s` as `repr` writes them between the quotes `q`. */
  function ReprBody(s: string, q: char): (r: string)
    requires q == '\'' || q == '"'
    ensures (forall i :: 0 <= i < |s| ==> ReprPlain(s[i])) ==> r == s
    ensures |r| >= |s|
  {
    if s == [] then [] else ReprChar(s[0], q) + ReprBody(s[1..], q)
  }

  /**
    Python's `repr` of a string, as `str(KeyError(key))` shows the key: quoted, with the
    backslash, the chosen quote and the ASCII controls escaped.
  */
  function PyRepr(s: string): (r: string)
    ensures |r| >= |s| + 2 && r[0] == ReprQuote(s) && r[|r| - 1] == ReprQuote(s)
    ensures (forall i :: 0 <= i < |s| ==> ReprPlain(s[i])) ==> r == "'" + s + "'"
  {
    var q := ReprQuote(s);
    [q] + ReprBody(s, q) + [q]
  }

  /** A key holding an apostrophe and no double quote is shown in double quotes, unescaped. */
  lemma ApostropheReprDoubleQuoted()
    ensures PyRepr("it's") == "\"it's\""
  {
  }

  /** `', '.join(parts)`. */
  function Join(parts: seq<string>, sep: string): string {
    if parts == [] then ""
    else if |parts| == 1 then parts[0]
    else parts[0] + sep + Join(parts[1..], sep)
  }
}
