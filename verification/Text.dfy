/** The few string functions the migration reader uses, as Go has them. */
module Text {

  /** unicode.IsSpace. */
  predicate IsSpace(c: char) {
    || '\t' <= c <= '\r' || c == ' ' || c == 0x85 as char || c == 0xA0 as char || c == 0x1680 as char
    || 0x2000 as char <= c <= 0x200a as char || c == 0x2028 as char || c == 0x2029 as char || c == 0x202f as char
    || c == 0x205f as char || c == 0x3000 as char
  }

  /** The white space of Unicode. */
  lemma SpacesAre(c: char)
    ensures IsSpace(c) <==>
            || c as int in {9, 10, 11, 12, 13, 32, 0x85, 0xA0, 0x1680, 0x2028, 0x2029, 0x202F, 0x205F, 0x3000}
            || 0x2000 <= c as int <= 0x200A
  {
  }

  function TrimLeft(s: string): string {
    if s != "" && IsSpace(s[0]) then TrimLeft(s[1..]) else s
  }

  function TrimRight(s: string): string {
    if s != "" && IsSpace(s[|s| - 1]) then TrimRight(s[..|s| - 1]) else s
  }

  function TrimSpace(s: string): string { TrimRight(TrimLeft(s)) }

  predicate Trimmed(s: string) { s == "" || (!IsSpace(s[0]) && !IsSpace(s[|s| - 1])) }

  /** None holds a newline. */
  predicate Words(lines: seq<string>) { forall i :: 0 <= i < |lines| ==> '\n' !in lines[i] }

  /** strings.Split(s, "\n"). */
  function Split(s: string): (lines: seq<string>)
    ensures |lines| > 0 && Words(lines)
  {
    if s == "" then [""]
    else
      var rest := Split(s[1..]);
      if s[0] == '\n' then [""] + rest else [[s[0]] + rest[0]] + rest[1..]
  }

  /** strings.Join(lines, "\n"). */
  function Join(lines: seq<string>): string {
    if lines == [] then "" else if |lines| == 1 then lines[0] else lines[0] + "\n" + Join(lines[1..])
  }

  /** strings.ReplaceAll(s, "\r\n", "\n"). */
  function Unix(s: string): string {
    if s == "" then ""
    else if |s| >= 2 && s[0] == '\r' && s[1] == '\n' then "\n" + Unix(s[2..])
    else [s[0]] + Unix(s[1..])
  }

  /** Every line ended as Windows does. */
  function Dos(s: string): string {
    if s == "" then "" else (if s[0] == '\n' then "\r\n" else [s[0]]) + Dos(s[1..])
  }

  /** No line of s ends in a carriage return before its newline. */
  predicate NoCRLF(s: string) {
    forall i :: 0 <= i < |s| - 1 ==> !(s[i] == '\r' && s[i + 1] == '\n')
  }

  // ---------------------------------------------------------------------

  lemma {:induction false} TrimmedStays(s: string)
    requires Trimmed(s)
    ensures TrimSpace(s) == s
  {
  }

  lemma {:induction false} TrimRightEnds(s: string)
    ensures var t := TrimRight(s); t <= s && (t == "" || !IsSpace(t[|t| - 1]))
  {
    if s != "" && IsSpace(s[|s| - 1]) { TrimRightEnds(s[..|s| - 1]); }
  }

  lemma {:induction false} TrimLeftEnds(s: string)
    ensures var t := TrimLeft(s); |t| <= |s| && t == s[|s| - |t|..] && (t == "" || !IsSpace(t[0]))
  {
    if s != "" && IsSpace(s[0]) { TrimLeftEnds(s[1..]); }
  }

  lemma TrimSpaceTrims(s: string)
    ensures Trimmed(TrimSpace(s))
    ensures NoCRLF(s) ==> NoCRLF(TrimSpace(s))
  {
    TrimLeftEnds(s);
    TrimRightEnds(TrimLeft(s));
    var l := TrimLeft(s);
    if NoCRLF(s) {
      var k := |s| - |l|;
      forall i | 0 <= i < |l| - 1 ensures !(l[i] == '\r' && l[i + 1] == '\n') {
        assert l[i] == s[k + i] && l[i + 1] == s[k + i + 1];
      }
    }
  }

  lemma {:induction false} TrimRightMore(s: string, c: char)
    requires IsSpace(c)
    ensures TrimRight(s + [c]) == TrimRight(s)
  {
    assert (s + [c])[..|s|] == s;
  }

  /** White space at an end of a line does not change what the line is, trimmed. */
  lemma {:induction false} TrimSpaceMore(s: string, c: char)
    requires IsSpace(c)
    ensures TrimSpace([c] + s) == TrimSpace(s)
    ensures TrimSpace(s + [c]) == TrimSpace(s)
  {
    assert ([c] + s)[1..] == s;
    TrimLeftMore(s, c);
  }

  lemma {:induction false} TrimLeftMore(s: string, c: char)
    requires IsSpace(c)
    ensures TrimRight(TrimLeft(s + [c])) == TrimRight(TrimLeft(s))
  {
    if s == "" {
      assert s + [c] == [c];
    } else if IsSpace(s[0]) {
      assert (s + [c])[1..] == s[1..] + [c];
      TrimLeftMore(s[1..], c);
    } else {
      TrimRightMore(s, c);
    }
  }

  lemma {:induction false} SplitWord(line: string)
    requires '\n' !in line
    ensures Split(line) == [line]
  {
    if line != "" {
      SplitWord(line[1..]);
      assert [line[0]] + line[1..] == line;
    }
  }

  lemma {:induction false} SplitLine(line: string, rest: string)
    requires '\n' !in line
    ensures Split(line + "\n" + rest) == [line] + Split(rest)
  {
    var s := line + "\n" + rest;
    if line == "" {
      assert s[1..] == rest;
    } else {
      assert s[1..] == line[1..] + "\n" + rest;
      SplitLine(line[1..], rest);
      var r := Split(s[1..]);
      assert r[0] == line[1..] && r[1..] == Split(rest);
      assert [s[0]] + line[1..] == line;
    }
  }

  lemma {:induction false} SplitOfJoin(lines: seq<string>)
    requires lines != [] && Words(lines)
    ensures Split(Join(lines)) == lines
  {
    if |lines| == 1 {
      SplitWord(lines[0]);
    } else {
      var rest := lines[1..];
      SplitOfJoin(rest);
      SplitLine(lines[0], Join(rest));
      assert [lines[0]] + rest == lines;
    }
  }

  lemma {:induction false} JoinOfSplit(s: string)
    ensures Join(Split(s)) == s
  {
    if s != "" {
      var rest := Split(s[1..]);
      JoinOfSplit(s[1..]);
      if s[0] == '\n' {
        assert ([""] + rest)[1..] == rest;
      } else if |rest| > 1 {
        assert Split(s)[1..] == rest[1..];
        assert Join(rest) == rest[0] + "\n" + Join(rest[1..]);
      }
    }
  }

  lemma {:induction false} JoinAppend(a: seq<string>, b: seq<string>)
    requires a != [] && b != []
    ensures Join(a + b) == Join(a) + "\n" + Join(b)
  {
    if |a| == 1 {
      assert (a + b)[1..] == b;
    } else {
      assert (a + b)[1..] == a[1..] + b;
      JoinAppend(a[1..], b);
    }
  }

  lemma AllWords(a: seq<string>, b: seq<string>)
    requires Words(a) && Words(b)
    ensures Words(a + b)
  {
  }

  /** A newline between two texts ends the first one's last line. */
  lemma {:induction false} SplitNewline(a: string, b: string)
    ensures Split(a + "\n" + b) == Split(a) + Split(b)
  {
    var la, lb := Split(a), Split(b);
    JoinOfSplit(a);
    JoinOfSplit(b);
    JoinAppend(la, lb);
    AllWords(la, lb);
    SplitOfJoin(la + lb);
  }

  /** A character that is no newline goes on the last line. */
  lemma {:induction false} SplitAppend(s: string, c: char)
    requires c != '\n'
    ensures var l, n := Split(s), |Split(s)| - 1;
            Split(s + [c]) == l[..n] + [l[n] + [c]]
  {
    var l, n := Split(s), |Split(s)| - 1;
    JoinOfSplit(s);
    SplitWord(l[n] + [c]);
    if n == 0 {
      assert l == [l[0]];
    } else {
      assert l == l[..n] + [l[n]];
      JoinAppend(l[..n], [l[n]]);
      var front := Join(l[..n]);
      assert front + "\n" + l[n] + [c] == front + "\n" + (l[n] + [c]);
      SplitNewline(front, l[n] + [c]);
      SplitOfJoin(l[..n]);
    }
  }

  lemma {:induction false} NoCRLFJoin(a: string, b: string)
    requires NoCRLF(a) && NoCRLF(b) && (a == "" || a[|a| - 1] != '\r')
    ensures NoCRLF(a + "\n" + b)
  {
    var s := a + "\n" + b;
    forall i | 0 <= i < |s| - 1 ensures !(s[i] == '\r' && s[i + 1] == '\n') {
      if i + 1 < |a| {
        assert s[i] == a[i] && s[i + 1] == a[i + 1];
      } else if i >= |a| + 1 {
        assert s[i] == b[i - |a| - 1] && s[i + 1] == b[i - |a|];
      }
    }
  }

  lemma {:induction false} UnixStays(s: string)
    requires NoCRLF(s)
    ensures Unix(s) == s
  {
    if s != "" {
      forall i | 0 <= i < |s[1..]| - 1 ensures !(s[1..][i] == '\r' && s[1..][i + 1] == '\n') {
        assert s[1..][i] == s[i + 1] && s[1..][i + 1] == s[i + 2];
      }
      UnixStays(s[1..]);
    }
  }

  /** Reading back Windows line ends gives what they were written for, whatever it holds. */
  lemma {:induction false} UnixOfDos(s: string)
    ensures Unix(Dos(s)) == s
  {
    if s != "" {
      UnixOfDos(s[1..]);
      var d := Dos(s);
      if s[0] == '\n' {
        assert d[2..] == Dos(s[1..]);
      } else {
        assert d[1..] == Dos(s[1..]);
        if s[0] == '\r' && |d| >= 2 { assert d[1] != '\n'; }
      }
    }
  }
}
