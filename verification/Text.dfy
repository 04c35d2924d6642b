/** The string operations the programs rely on, over Unicode scalar values. */
module Text {

  // ---------------------------------------------------------------- splitting and joining

  function Split(s: string, sep: char): (parts: seq<string>)
    ensures parts != []
    ensures forall i | 0 <= i < |parts| :: sep !in parts[i]
  {
    if s == "" then [""]
    else
      var rest := Split(s[1..], sep);
      if s[0] == sep then [""] + rest else [[s[0]] + rest[0]] + rest[1..]
  }

  function Join(parts: seq<string>, sep: char): string
    requires parts != []
  {
    if |parts| == 1 then parts[0] else parts[0] + [sep] + Join(parts[1..], sep)
  }

  lemma {:induction false} JoinSplit(s: string, sep: char)
    ensures Join(Split(s, sep), sep) == s
  {
    if s != "" {
      JoinSplit(s[1..], sep);
      var rest := Split(s[1..], sep);
      if s[0] != sep && |rest| > 1 {
        assert Split(s, sep)[1..] == rest[1..];
      }
    }
  }

  lemma {:induction false} SplitPrefix(p: string, s: string, sep: char)
    requires sep !in p
    ensures Split(p + s, sep) == [p + Split(s, sep)[0]] + Split(s, sep)[1..]
  {
    var r := Split(s, sep);
    if p == "" {
      assert p + s == s && p + r[0] == r[0];
    } else {
      assert (p + s)[1..] == p[1..] + s;
      SplitPrefix(p[1..], s, sep);
      assert [p[0]] + (p[1..] + Split(s, sep)[0]) == p + Split(s, sep)[0];
    }
  }

  lemma {:induction false} SplitJoin(parts: seq<string>, sep: char)
    requires parts != [] && forall i | 0 <= i < |parts| :: sep !in parts[i]
    ensures Split(Join(parts, sep), sep) == parts
  {
    if |parts| == 1 {
      assert parts[0] + "" == parts[0];
      SplitPrefix(parts[0], "", sep);
    } else {
      SplitJoin(parts[1..], sep);
      var tail := [sep] + Join(parts[1..], sep);
      assert Join(parts, sep) == parts[0] + tail;
      SplitPrefix(parts[0], tail, sep);
      assert tail[1..] == Join(parts[1..], sep);
      assert parts[0] + "" == parts[0] && Split(tail, sep)[1..] == parts[1..];
    }
  }

  lemma {:induction false} SplitCons(c: char, s: string, sep: char)
    ensures Split([c] + s, sep)
         == if c == sep then [""] + Split(s, sep) else [[c] + Split(s, sep)[0]] + Split(s, sep)[1..]
  {
    assert ([c] + s)[1..] == s;
  }

  /** Splitting at a separator splits on either side of it. */
  lemma {:induction false} SplitConcat(a: string, b: string, sep: char)
    ensures Split(a + [sep] + b, sep) == Split(a, sep) + Split(b, sep)
  {
    if a == "" {
      SplitCons(sep, b, sep);
      assert a + [sep] + b == [sep] + b;
    } else {
      var c, rest := a[0], a[1..];
      SplitConcat(rest, b, sep);
      SplitCons(c, rest, sep);
      SplitCons(c, rest + [sep] + b, sep);
      assert a == [c] + rest && a + [sep] + b == [c] + (rest + [sep] + b);
      HeadOfConcat(Split(rest, sep), Split(b, sep));
    }
  }

  lemma {:induction false} HeadOfConcat(r: seq<string>, t: seq<string>)
    requires r != []
    ensures (r + t)[0] == r[0] && (r + t)[1..] == r[1..] + t
    ensures forall x: seq<string> :: x + (r + t) == x + r + t && x + (r[1..] + t) == x + r[1..] + t
  {
  }

  /** A part without the separator is a part again after joining and splitting. */
  lemma {:induction false} PartSurvives(parts: seq<string>, i: nat, sep: char)
    requires i < |parts| && sep !in parts[i]
    ensures parts[i] in Split(Join(parts, sep), sep)
  {
    if |parts| == 1 {
      SplitJoin(parts, sep);
    } else {
      var rest := Join(parts[1..], sep);
      SplitConcat(parts[0], rest, sep);
      if i == 0 {
        SplitJoin([parts[0]], sep);
        assert Split(parts[0], sep) == [parts[0]];
      } else {
        PartSurvives(parts[1..], i - 1, sep);
      }
    }
  }

  // ---------------------------------------------------------------- white space and fields

  predicate IsSpace(c: char) {
    || c == ' ' || '\U{0009}' <= c <= '\U{000D}' || c == '\U{0085}' || c == '\U{00A0}' || c == '\U{1680}'
    || '\U{2000}' <= c <= '\U{200A}' || c == '\U{2028}' || c == '\U{2029}' || c == '\U{202F}'
    || c == '\U{205F}' || c == '\U{3000}'
  }

  /** In ASCII, white space is the blank and the five controls from tab to carriage return. */
  lemma {:induction false} AsciiSpace(c: char)
    requires c < '\U{0080}'
    ensures IsSpace(c) <==> c in " \t\n\r" || c == '\U{000B}' || c == '\U{000C}'
  {
    assert " \t\n\r"[0] == ' ' && " \t\n\r"[1] == '\t' && " \t\n\r"[2] == '\n' && " \t\n\r"[3] == '\r';
  }

  /** A non-empty string with no white space. */
  predicate Token(s: string) {
    s != "" && forall i | 0 <= i < |s| :: !IsSpace(s[i])
  }

  function Word(s: string): (w: string)
    ensures w <= s
    ensures forall i | 0 <= i < |w| :: !IsSpace(w[i])
    ensures |w| < |s| ==> IsSpace(s[|w|])
  {
    if s == "" || IsSpace(s[0]) then "" else [s[0]] + Word(s[1..])
  }

  /** The maximal runs of characters that are not white space. */
  function Fields(s: string): (ws: seq<string>)
    ensures forall i | 0 <= i < |ws| :: Token(ws[i])
    decreases |s|
  {
    if s == "" then []
    else if IsSpace(s[0]) then Fields(s[1..])
    else [Word(s)] + Fields(s[|Word(s)|..])
  }

  lemma {:induction false} FieldsSkip(indent: string, s: string)
    requires forall i | 0 <= i < |indent| :: IsSpace(indent[i])
    ensures Fields(indent + s) == Fields(s)
  {
    if indent == "" {
      assert indent + s == s;
    } else {
      assert (indent + s)[1..] == indent[1..] + s;
      FieldsSkip(indent[1..], s);
    }
  }

  lemma {:induction false} WordOf(w: string, s: string)
    requires forall i | 0 <= i < |w| :: !IsSpace(w[i])
    requires s == "" || IsSpace(s[0])
    ensures Word(w + s) == w
  {
    if w == "" {
      assert w + s == s;
    } else {
      assert (w + s)[1..] == w[1..] + s;
      WordOf(w[1..], s);
    }
  }

  lemma {:induction false} FieldsWord(w: string, s: string)
    requires Token(w) && (s == "" || IsSpace(s[0]))
    ensures Fields(w + s) == [w] + Fields(s)
  {
    WordOf(w, s);
    assert (w + s)[0] == w[0] && (w + s)[|w|..] == s;
  }

  lemma {:induction false} Reassociate(a: string, b: string, c: string, d: string)
    ensures a + b + c + d == a + (b + (c + d))
  {
  }

  lemma {:induction false} FieldsOfTwo(key: string, value: string)
    requires Token(key) && Token(value)
    ensures Fields(key + (" " + value)) == [key, value]
  {
    FieldsWord(key, " " + value);
    FieldsSkip(" ", value);
    FieldsWord(value, "");
    assert value + "" == value;
  }

  lemma {:induction false} FieldsOfPair(indent: string, key: string, value: string)
    requires forall i | 0 <= i < |indent| :: IsSpace(indent[i])
    requires Token(key) && Token(value)
    ensures Fields(indent + key + " " + value) == [key, value]
  {
    Reassociate(indent, key, " ", value);
    FieldsSkip(indent, key + (" " + value));
    FieldsOfTwo(key, value);
  }

  // ---------------------------------------------------------------- case folding

  /** Folds the characters that simple case folding identifies with an ASCII letter. */
  function FoldChar(c: char): char {
    if 'A' <= c <= 'Z' then c - 'A' + 'a'
    else if c == '\U{017F}' then 's'
    else if c == '\U{212A}' then 'k'
    else c
  }

  /** Case-insensitive equality with an ASCII keyword. */
  predicate EqualFold(s: string, keyword: string) {
    |s| == |keyword| && forall i | 0 <= i < |s| :: FoldChar(s[i]) == FoldChar(keyword[i])
  }

  /** ASCII letters in lower case, everything else as it is. */
  function AsciiLower(s: string): (r: string)
    ensures |r| == |s|
  {
    seq(|s|, i requires 0 <= i < |s| => if 'A' <= s[i] <= 'Z' then s[i] - 'A' + 'a' else s[i])
  }

  predicate IsAscii(s: string) {
    forall i | 0 <= i < |s| :: s[i] < '\U{0080}'
  }

  // ---------------------------------------------------------------- decimal numerals

  predicate IsDigit(c: char) {
    '0' <= c <= '9'
  }

  function DigitChar(d: nat): (c: char)
    requires d < 10
    ensures IsDigit(c) && DigitValue(c) == d
  {
    '0' + d as char
  }

  function Decimal(n: nat): (s: string)
    ensures s != "" && forall i | 0 <= i < |s| :: IsDigit(s[i])
  {
    if n < 10 then [DigitChar(n)] else Decimal(n / 10) + [DigitChar(n % 10)]
  }

  function DigitValue(c: char): nat
    requires IsDigit(c)
  {
    c as int - '0' as int
  }

  function Value(s: string): nat
    requires forall i | 0 <= i < |s| :: IsDigit(s[i])
  {
    if s == "" then 0 else Value(s[..|s| - 1]) * 10 + DigitValue(s[|s| - 1])
  }

  lemma {:induction false} ValueOfDecimal(n: nat)
    ensures Value(Decimal(n)) == n
  {
    if n >= 10 {
      ValueOfDecimal(n / 10);
      assert Decimal(n)[..|Decimal(n)| - 1] == Decimal(n / 10);
    } else {
      assert Decimal(n)[..0] == "";
    }
  }

  // ---------------------------------------------------------------- unused strings

  lemma {:induction false} LongerThanAll(used: set<string>) returns (n: nat)
    ensures n > 0 && forall x | x in used :: |x| < n
  {
    if used == {} {
      n := 1;
    } else {
      var x :| x in used;
      n := LongerThanAll(used - {x});
      n := if |x| < n then n else |x| + 1;
    }
  }

  /** There is always a string that is not in use. */
  lemma {:induction false} FreshString(used: set<string>) returns (x: string)
    ensures x !in used && x != ""
  {
    var n := LongerThanAll(used);
    x := seq(n, _ => 'x');
  }
}
