/**
 The functions of Go's strings and unicode packages that the configuration parser
 uses, on text as a sequence of characters.
 */
module Text {

  // ---- Characters ----

  /** unicode.IsSpace. */
  predicate IsSpace(c: char) {
    var n := c as int;
    || 9 <= n <= 13 || n == 0x20 || n == 0x85 || n == 0xA0 || n == 0x1680 || 0x2000 <= n <= 0x200A
    || n == 0x2028 || n == 0x2029 || n == 0x202F || n == 0x205F || n == 0x3000
  }

  /** unicode.IsControl. */
  predicate IsControl(c: char) {
    var n := c as int;
    n < 0x20 || 0x7F <= n <= 0x9F
  }

  /** Lower case as far as comparison with ASCII words goes: two more letters have an ASCII lower case. */
  function LowerChar(c: char): char {
    if 'A' <= c <= 'Z' then (c as int + 32) as char
    else if c as int == 0x212A then 'k'
    else if c as int == 0x130 then 'i'
    else c
  }

  function Lower(s: string): (r: string)
    ensures |r| == |s| && forall k | 0 <= k < |s| :: r[k] == LowerChar(s[k])
  {
    seq(|s|, k requires 0 <= k < |s| => LowerChar(s[k]))
  }

  /** The simple case folding of strings.EqualFold, for texts whose other side is one of the closing tags. */
  function FoldChar(c: char): char {
    if 'A' <= c <= 'Z' then (c as int + 32) as char else if c as int == 0x212A then 'k' else c
  }

  predicate EqualFold(s: string, t: string) {
    |s| == |t| && forall k | 0 <= k < |s| :: FoldChar(s[k]) == FoldChar(t[k])
  }

  /** Among the 128 ASCII characters. */
  lemma AsciiMeans(c: char)
    requires c as int < 128
    ensures IsSpace(c) <==> c as int in {9, 10, 11, 12, 13, 32}
    ensures IsControl(c) <==> c as int < 32 || c as int == 127
    ensures FoldChar(c) == LowerChar(c)
    ensures if 'A' <= c <= 'Z' then 'a' <= LowerChar(c) <= 'z' && LowerChar(c) - 'a' == c - 'A' else LowerChar(c) == c
  {
  }

  /** And beyond: the spaces of Unicode, the second block of controls, and the two letters with an ASCII lower case. */
  lemma UnicodeMeans(c: char)
    requires c as int >= 128
    ensures IsSpace(c) <==>
      c as int in {0x85, 0xA0, 0x1680, 0x2000, 0x2001, 0x2002, 0x2003, 0x2004, 0x2005, 0x2006, 0x2007, 0x2008, 0x2009,
                   0x200A, 0x2028, 0x2029, 0x202F, 0x205F, 0x3000}
    ensures IsControl(c) <==> c as int < 0xA0
    ensures LowerChar(c) == if c == '\U{212A}' then 'k' else if c == '\U{0130}' then 'i' else c
    ensures FoldChar(c) == if c == '\U{212A}' then 'k' else c
  {
  }

  /** Folding is comparison in lower case, but for the dotted capital I, which only lower case knows. */
  lemma FoldMeans(s: string, t: string)
    requires forall k | 0 <= k < |s| :: s[k] as int != 0x130
    requires forall k | 0 <= k < |t| :: t[k] as int != 0x130
    ensures EqualFold(s, t) <==> Lower(s) == Lower(t)
  {
    if Lower(s) == Lower(t) {
      forall k | 0 <= k < |s| ensures FoldChar(s[k]) == FoldChar(t[k]) { assert Lower(s)[k] == Lower(t)[k]; }
    }
  }

  predicate Plain(s: string) {
    forall k | 0 <= k < |s| :: !IsSpace(s[k])
  }

  // ---- TrimSpace ----

  function TrimLeft(s: string): string {
    if s != "" && IsSpace(s[0]) then TrimLeft(s[1..]) else s
  }

  function TrimRight(s: string): string {
    if s != "" && IsSpace(s[|s| - 1]) then TrimRight(s[..|s| - 1]) else s
  }

  function TrimSpace(s: string): string {
    TrimRight(TrimLeft(s))
  }

  predicate Trimmed(s: string) {
    s == "" || (!IsSpace(s[0]) && !IsSpace(s[|s| - 1]))
  }

  lemma TrimmedStays(s: string)
    requires Trimmed(s)
    ensures TrimSpace(s) == s
  {
  }

  lemma {:induction false} TrimLeftShape(s: string)
    ensures var r := TrimLeft(s); (r == "" || !IsSpace(r[0])) && |r| <= |s| && r == s[|s| - |r|..]
  {
    if s != "" && IsSpace(s[0]) {
      TrimLeftShape(s[1..]);
    }
  }

  lemma {:induction false} TrimRightShape(s: string)
    ensures var r := TrimRight(s); (r == "" || !IsSpace(r[|r| - 1])) && |r| <= |s| && r == s[..|r|]
  {
    if s != "" && IsSpace(s[|s| - 1]) {
      TrimRightShape(s[..|s| - 1]);
    }
  }

  lemma TrimSpaceShape(s: string)
    ensures Trimmed(TrimSpace(s))
    ensures forall c | c in TrimSpace(s) :: c in s
  {
    TrimLeftShape(s);
    TrimRightShape(TrimLeft(s));
  }

  ghost predicate Blank(s: string) {
    forall k | 0 <= k < |s| :: IsSpace(s[k])
  }

  lemma {:induction false} TrimLeftDrops(a: string, t: string)
    requires Blank(a)
    ensures TrimLeft(a + t) == TrimLeft(t)
  {
    if a == "" {
      assert a + t == t;
    } else {
      assert (a + t)[1..] == a[1..] + t;
      TrimLeftDrops(a[1..], t);
    }
  }

  lemma {:induction false} TrimRightDrops(t: string, b: string)
    requires Blank(b)
    ensures TrimRight(t + b) == TrimRight(t)
  {
    if b == "" {
      assert t + b == t;
    } else {
      assert (t + b)[..|t + b| - 1] == t + b[..|b| - 1];
      TrimRightDrops(t, b[..|b| - 1]);
    }
  }

  /** TrimSpace takes the spaces off both ends, and nothing else. */
  lemma TrimSpaceMeans(a: string, t: string, b: string)
    requires Blank(a) && Trimmed(t) && Blank(b)
    ensures TrimSpace(a + t + b) == t
  {
    assert a + t + b == a + (t + b);
    TrimLeftDrops(a, t + b);
    if t == "" {
      assert t + b == b + "";
      TrimLeftDrops(b, "");
    } else {
      TrimRightDrops(t, b);
    }
  }

  // ---- Fields and Join ----

  function Run(s: string): (n: nat)
    ensures n <= |s| && Plain(s[..n]) && (n < |s| ==> IsSpace(s[n]))
  {
    if s == "" || IsSpace(s[0]) then 0 else 1 + Run(s[1..])
  }

  function Fields(s: string): seq<string> {
    if s == "" then []
    else if IsSpace(s[0]) then Fields(s[1..])
    else [s[..Run(s)]] + Fields(s[Run(s)..])
  }

  lemma {:induction false} RunOfWord(w: string, rest: string)
    requires Plain(w) && (rest == "" || IsSpace(rest[0]))
    ensures Run(w + rest) == |w|
  {
    if w == "" {
      assert w + rest == rest;
    } else {
      assert (w + rest)[1..] == w[1..] + rest;
      assert forall k | 0 <= k < |w[1..]| :: w[1..][k] == w[k + 1];
      RunOfWord(w[1..], rest);
    }
  }

  lemma FieldsOfWord(w: string, rest: string)
    requires w != "" && Plain(w) && (rest == "" || IsSpace(rest[0]))
    ensures Fields(w + rest) == [w] + Fields(rest)
  {
    RunOfWord(w, rest);
    assert (w + rest)[..|w|] == w && (w + rest)[|w|..] == rest;
  }

  /** Words may be any number of spaces apart. */
  lemma FieldsSkipSpace(c: char, rest: string)
    requires IsSpace(c)
    ensures Fields([c] + rest) == Fields(rest)
  {
    assert ([c] + rest)[1..] == rest;
  }

  /** Fields are words: not empty, without spaces, made of the characters of the text. */
  predicate Words(fs: seq<string>) {
    forall k | 0 <= k < |fs| :: fs[k] != "" && Plain(fs[k])
  }

  lemma {:induction false} FieldsAreWords(s: string)
    ensures Words(Fields(s))
    ensures forall f, c | f in Fields(s) && c in f :: c in s
  {
    if s == "" {
    } else if IsSpace(s[0]) {
      FieldsAreWords(s[1..]);
    } else {
      FieldsAreWords(s[Run(s)..]);
    }
  }

  function Join(fs: seq<string>): string {
    if fs == [] then "" else if |fs| == 1 then fs[0] else fs[0] + " " + Join(fs[1..])
  }

  lemma {:induction false} FieldsOfJoin(fs: seq<string>)
    requires Words(fs)
    ensures Fields(Join(fs)) == fs
  {
    if |fs| == 1 {
      FieldsOfWord(fs[0], "");
      assert fs[0] + "" == fs[0];
    } else if |fs| > 1 {
      var rest := Join(fs[1..]);
      FieldsOfJoin(fs[1..]);
      FieldsOfWord(fs[0], " " + rest);
      assert fs[0] + " " + rest == fs[0] + (" " + rest);
      assert (" " + rest)[1..] == rest;
    }
  }

  lemma {:induction false} JoinTrimmed(fs: seq<string>)
    requires Words(fs)
    ensures Trimmed(Join(fs)) && (fs != [] ==> Join(fs) != "")
  {
    if |fs| > 1 {
      JoinTrimmed(fs[1..]);
    }
  }

  lemma {:induction false} JoinChars(fs: seq<string>, c: char)
    requires c in Join(fs)
    ensures c == ' ' || exists f :: f in fs && c in f
  {
    if |fs| == 1 {
      assert fs[0] in fs;
    } else if |fs| > 1 {
      if c in Join(fs[1..]) {
        JoinChars(fs[1..], c);
      } else {
        assert c in fs[0] || c == ' ';
      }
    }
  }

  // ---- Lines ----

  /** bufio.ScanLines: lines end at a line feed, and lose one carriage return before it. */
  function Lines(s: string): seq<string> {
    if s == "" then []
    else
      var n := UpTo(s);
      [DropReturn(s[..n])] + (if n < |s| then Lines(s[n + 1..]) else [])
  }

  function UpTo(s: string): (n: nat)
    ensures n <= |s| && (n < |s| ==> s[n] == '\n') && forall k | 0 <= k < n :: s[k] != '\n'
  {
    if s == "" || s[0] == '\n' then 0 else 1 + UpTo(s[1..])
  }

  function DropReturn(line: string): string {
    if line != "" && line[|line| - 1] == '\r' then line[..|line| - 1] else line
  }

  function Unlines(lines: seq<string>): string {
    if lines == [] then "" else lines[0] + "\n" + Unlines(lines[1..])
  }

  lemma {:induction false} UnlinesAppend(ls: seq<string>, line: string)
    ensures Unlines(ls + [line]) == Unlines(ls) + line + "\n"
  {
    if ls == [] {
      assert [line] + [] == [line];
    } else {
      assert (ls + [line])[1..] == ls[1..] + [line];
      UnlinesAppend(ls[1..], line);
    }
  }

  lemma {:induction false} UnlinesConcat(a: seq<string>, b: seq<string>)
    ensures Unlines(a + b) == Unlines(a) + Unlines(b)
  {
    if a == [] {
      assert a + b == b;
    } else {
      assert (a + b)[1..] == a[1..] + b;
      UnlinesConcat(a[1..], b);
    }
  }

  /** A line that comes back as it was written. */
  predicate OneLine(s: string) {
    (forall k | 0 <= k < |s| :: s[k] != '\n') && (s != "" ==> s[|s| - 1] != '\r')
  }

  lemma {:induction false} UpToEnd(line: string, rest: string)
    requires forall k | 0 <= k < |line| :: line[k] != '\n'
    ensures UpTo(line + "\n" + rest) == |line|
  {
    if line == "" {
      assert line + "\n" + rest == "\n" + rest;
    } else {
      assert (line + "\n" + rest)[1..] == line[1..] + "\n" + rest;
      UpToEnd(line[1..], rest);
    }
  }

  lemma {:induction false} LinesOfUnlines(lines: seq<string>)
    requires forall k | 0 <= k < |lines| :: OneLine(lines[k])
    ensures Lines(Unlines(lines)) == lines
  {
    if lines != [] {
      var s, rest := Unlines(lines), Unlines(lines[1..]);
      UpToEnd(lines[0], rest);
      assert s[..|lines[0]|] == lines[0] && s[|lines[0]| + 1..] == rest;
      LinesOfUnlines(lines[1..]);
    }
  }

  /** The same lines with carriage returns, or without the last line feed, are read as the same lines. */
  lemma {:induction false} LinesOfReturns(lines: seq<string>)
    requires forall k | 0 <= k < |lines| :: OneLine(lines[k])
    ensures Lines(Unlines(seq(|lines|, k requires 0 <= k < |lines| => lines[k] + "\r"))) == lines
  {
    if lines != [] {
      var all := seq(|lines|, k requires 0 <= k < |lines| => lines[k] + "\r");
      var tail := seq(|lines[1..]|, k requires 0 <= k < |lines[1..]| => lines[1..][k] + "\r");
      assert all[1..] == tail;
      var s, rest := Unlines(all), Unlines(tail);
      UpToEnd(all[0], rest);
      assert s[..|all[0]|] == all[0] && s[|all[0]| + 1..] == rest;
      assert all[0][..|all[0]| - 1] == lines[0];
      LinesOfReturns(lines[1..]);
    }
  }

  lemma LinesOfFirst(line: string, rest: string)
    requires OneLine(line)
    ensures Lines(line + "\n" + rest) == [line] + Lines(rest)
  {
    var s := line + "\n" + rest;
    UpToEnd(line, rest);
    assert s[..|line|] == line && s[|line| + 1..] == rest;
  }

  lemma {:induction false} LastLineOpen(lines: seq<string>, last: string)
    requires last != "" && OneLine(last) && forall k | 0 <= k < |lines| :: OneLine(lines[k])
    ensures Lines(Unlines(lines) + last) == lines + [last]
  {
    if lines == [] {
      assert Unlines(lines) + last == last && lines + [last] == [last] && last[..|last|] == last;
      assert UpTo(last) == |last|;
    } else {
      hide Lines, OneLine;
      assert Unlines(lines) + last == lines[0] + "\n" + (Unlines(lines[1..]) + last);
      LinesOfFirst(lines[0], Unlines(lines[1..]) + last);
      LastLineOpen(lines[1..], last);
      assert lines + [last] == [lines[0]] + (lines[1..] + [last]);
    }
  }

  lemma {:induction false} LinesAreLines(s: string)
    ensures forall line, c | line in Lines(s) && c in line :: c in s && c != '\n'
  {
    if s != "" && UpTo(s) < |s| {
      LinesAreLines(s[UpTo(s) + 1..]);
    }
  }
}
