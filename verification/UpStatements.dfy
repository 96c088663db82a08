/**
The SQLite migrations' reader (api/migrate_sqlite.go): the statements of a file's
`-- +goose Up` section. A StatementBegin/End block is one statement; otherwise one ends at a
line that ends with a semicolon.
*/
module UpStatements {
  import opened Text

  const DIRECTIVE := "-- +goose"
  const UP := "-- +goose Up"
  const DOWN := "-- +goose Down"
  const BEGIN := "-- +goose StatementBegin"
  const END := "-- +goose StatementEnd"

  /** A line, trimmed, that is not code. */
  predicate Blank(t: string) { t == "" || "--" <= t }

  predicate HasCode(text: string) {
    exists i :: 0 <= i < |Split(text)| && !Blank(TrimSpace(Split(text)[i]))
  }

  /** The reader's locals after some lines. */
  datatype Reader = Reader(stmts: seq<string>, buf: seq<string>, inUp: bool, inBlock: bool, done: bool)

  const START := Reader([], [], false, false, false)

  function Flush(r: Reader): Reader {
    var text := TrimSpace(Join(r.buf));
    r.(buf := [], stmts := if HasCode(text) then r.stmts + [text] else r.stmts)
  }

  /** What a line is; ends: a statement outside a block ends with it. */
  datatype Kind = Up | Down | Begin | End | Directive | Text(ends: bool)

  function KindOf(line: string): Kind {
    var s := TrimSpace(line);
    if UP <= s then Up
    else if DOWN <= s then Down
    else if BEGIN <= s then Begin
    else if END <= s then End
    else if DIRECTIVE <= s then Directive
    else Text(s != "" && s[|s| - 1] == ';' && !("--" <= s))
  }

  /** One line. */
  function Line(r: Reader, line: string): Reader {
    if r.done then r
    else
      match KindOf(line)
      case Up => r.(inUp := true)
      case Down => Flush(r).(done := true)
      case Begin => if r.inUp then r.(buf := [], inBlock := true) else r
      case End => if r.inUp then Flush(r).(inBlock := false) else r
      case Directive => r
      case Text(ends) =>
        var more := r.(buf := r.buf + [line]);
        if !r.inUp then r else if !r.inBlock && ends then Flush(more) else more
  }

  function Lines(r: Reader, lines: seq<string>): Reader {
    if lines == [] then r else Line(Lines(r, lines[..|lines| - 1]), lines[|lines| - 1])
  }

  function Finish(r: Reader): seq<string> { if r.done then r.stmts else Flush(r).stmts }

  function StatementsOf(lines: seq<string>): seq<string> { Finish(Lines(START, lines)) }

  /** The statements of a file. */
  function Statements(raw: string): seq<string> { StatementsOf(Split(Unix(raw))) }

  /** hasCode, line by line. */
  method HasCodeOf(text: string) returns (code: bool)
    ensures code == HasCode(text)
  {
    var lines := Split(text);
    for i := 0 to |lines|
      invariant forall j :: 0 <= j < i ==> Blank(TrimSpace(lines[j]))
    {
      if !Blank(TrimSpace(lines[i])) { return true; }
    }
    code := false;
  }

  /** upStatements, its buffer and flags changed line by line. */
  method Read(raw: string) returns (stmts: seq<string>)
    ensures stmts == Statements(raw)
  {
    var lines := Split(Unix(raw));
    var buf: seq<string> := [];
    var inUp, inBlock := false, false;
    stmts := [];
    for i := 0 to |lines|
      invariant Lines(START, lines[..i]) == Reader(stmts, buf, inUp, inBlock, false)
    {
      LineByLine(lines, i);
      var kind := KindOf(lines[i]);
      if kind.Up? {
        inUp := true;
      } else if kind.Down? {
        stmts := FlushInto(stmts, buf);
        return;
      } else if !inUp || kind.Directive? {
      } else if kind.Begin? {
        buf, inBlock := [], true;
      } else if kind.End? {
        stmts := FlushInto(stmts, buf);
        buf, inBlock := [], false;
      } else {
        buf := buf + [lines[i]];
        if !inBlock && kind.ends {
          stmts := FlushInto(stmts, buf);
          buf := [];
        }
      }
    }
    assert lines[..|lines|] == lines;
    stmts := FlushInto(stmts, buf);
  }

  lemma LineByLine(lines: seq<string>, i: nat)
    requires i < |lines|
    ensures Lines(START, lines[..i + 1]) == Line(Lines(START, lines[..i]), lines[i])
    ensures KindOf(lines[i]).Down? ==> StatementsOf(lines) == StatementsOf(lines[..i])
  {
    assert lines[..i + 1][..i] == lines[..i];
    if KindOf(lines[i]).Down? {
      NothingAfterDown(lines[..i], lines[i], lines[i + 1..]);
      assert lines == lines[..i] + [lines[i]] + lines[i + 1..];
    }
  }

  method FlushInto(stmts: seq<string>, buf: seq<string>) returns (more: seq<string>)
    ensures forall inUp, inBlock, done :: Flush(Reader(stmts, buf, inUp, inBlock, done)).stmts == more
  {
    var text := TrimSpace(Join(buf));
    var code := HasCodeOf(text);
    more := if code then stmts + [text] else stmts;
  }

  lemma {:induction false} LinesJoin(r: Reader, a: seq<string>, b: seq<string>)
    ensures Lines(r, a + b) == Lines(Lines(r, a), b)
  {
    if b == [] {
      assert a + b == a;
    } else {
      var n := |b| - 1;
      LinesJoin(r, a, b[..n]);
      assert (a + b)[..|a + b| - 1] == a + b[..n];
    }
  }

  lemma {:induction false} DoneStays(r: Reader, lines: seq<string>)
    requires r.done
    ensures Lines(r, lines) == r
  {
    if lines != [] { DoneStays(r, lines[..|lines| - 1]); }
  }

  // ---------------------------------------------------------------------
  // What never appears
  // ---------------------------------------------------------------------

  predicate AnyDown(lines: seq<string>) {
    lines != [] && (AnyDown(lines[..|lines| - 1]) || KindOf(lines[|lines| - 1]).Down?)
  }

  /** Lines before the first Up directive count for nothing, unless one of them is a Down. */
  lemma NothingBeforeUp(head: seq<string>, rest: seq<string>)
    requires forall i :: 0 <= i < |head| ==> !KindOf(head[i]).Up?
    ensures StatementsOf(head + rest) == if AnyDown(head) then [] else StatementsOf(rest)
  {
    HeadIsSkipped(head);
    LinesJoin(START, head, rest);
    if AnyDown(head) { DoneStays(Lines(START, head), rest); }
  }

  lemma {:induction false} HeadIsSkipped(head: seq<string>)
    requires forall i :: 0 <= i < |head| ==> !KindOf(head[i]).Up?
    ensures Lines(START, head) == START.(done := AnyDown(head))
  {
    if head != [] {
      var n := |head| - 1;
      HeadIsSkipped(head[..n]);
      FirstLine(head[n]);
    }
  }

  lemma FirstLine(line: string)
    requires !KindOf(line).Up?
    ensures Line(START, line) == START.(done := KindOf(line).Down?)
  {
    BlankHasNoCode();
  }

  lemma BlankHasNoCode()
    ensures Join([]) == "" && TrimSpace("") == "" && !HasCode("")
  {
    assert Split("") == [""];
  }

  /** Nothing after a Down directive counts: the file might as well end there. */
  lemma {:induction false} NothingAfterDown(head: seq<string>, down: string, rest: seq<string>)
    requires KindOf(down).Down?
    ensures StatementsOf(head + [down] + rest) == StatementsOf(head)
  {
    var r := Lines(START, head);
    LinesJoin(START, head, [down]);
    LinesJoin(START, head + [down], rest);
    assert [down][..0] == [] && Lines(r, [down]) == Line(r, down);
    DoneStays(Line(r, down), rest);
  }

  /** A file saved with Windows line ends holds the same statements. */
  lemma WindowsLineEnds(raw: string)
    requires NoCRLF(raw)
    ensures Statements(Dos(raw)) == Statements(raw)
  {
    UnixOfDos(raw);
    UnixStays(raw);
  }

  // ---------------------------------------------------------------------
  // What each line does
  // ---------------------------------------------------------------------

  /** A line is a directive by how it begins, white space aside; of the others one ends a statement by its last character, unless it is a comment. */
  lemma LineKinds(line: string)
    ensures var t, k := TrimSpace(line), KindOf(line);
            && (k.Up? <==> "-- +goose Up" <= t) && (k.Down? <==> "-- +goose Down" <= t)
            && (k.Begin? <==> "-- +goose StatementBegin" <= t) && (k.End? <==> "-- +goose StatementEnd" <= t)
            && (k.Text? <==> !("-- +goose" <= t))
            && (k == Text(true) <==> t != "" && t[|t| - 1] == ';' && !("--" <= t))
  {
    assert UP[10] == 'U' && DOWN[10] == 'D' && BEGIN[10] == 'S' && BEGIN[19] == 'B' && END[10] == 'S' && END[19] == 'E';
    var t := TrimSpace(line);
    if UP <= t || DOWN <= t || BEGIN <= t || END <= t {
      assert DIRECTIVE <= UP && DIRECTIVE <= DOWN && DIRECTIVE <= BEGIN && DIRECTIVE <= END;
      assert t[..9] == DIRECTIVE;
    }
  }

  /** Before the Up directive a line does nothing, but a Down ends the file. */
  lemma NothingCountsBeforeUp(r: Reader, line: string)
    requires !r.inUp && !r.done && !KindOf(line).Up? && !KindOf(line).Down?
    ensures Line(r, line) == r
  {
  }

  /** A block starts over, and what it gathers is one statement when it ends. */
  lemma BlocksAreOneStatement(r: Reader, begin: string, lines: seq<string>, end: string)
    requires r.inUp && !r.done && KindOf(begin).Begin? && KindOf(end).End? && NoDirectiveIn(lines)
    ensures var text := TrimSpace(Join(lines));
            Line(Lines(Line(r, begin), lines), end) ==
              Reader(if HasCode(text) then r.stmts + [text] else r.stmts, [], true, false, false)
  {
    Gathered(Line(r, begin), lines);
    assert [] + lines == lines;
  }

  lemma {:induction false} Gathered(r: Reader, lines: seq<string>)
    requires r.inUp && !r.done && r.inBlock && NoDirectiveIn(lines)
    ensures Lines(r, lines) == r.(buf := r.buf + lines)
  {
    if lines == [] {
      assert r.buf + [] == r.buf;
    } else {
      var n := |lines| - 1;
      Gathered(r, lines[..n]);
      assert IsText(lines[n]);
      TextIsText(lines[n]);
      assert r.buf + lines[..n] + [lines[n]] == r.buf + lines;
    }
  }

  /** Outside a block lines are gathered until one that ends a statement, which comments do not. */
  lemma LineEndsAStatement(r: Reader, line: string)
    requires r.inUp && !r.done && !r.inBlock && KindOf(line).Text?
    ensures var text := TrimSpace(Join(r.buf + [line]));
            Line(r, line) ==
              if KindOf(line) == Text(true) then Reader(if HasCode(text) then r.stmts + [text] else r.stmts, [], true, false, false)
              else r.(buf := r.buf + [line])
  {
  }

  /** A text of nothing but blank lines and comments is no statement, any other is. */
  lemma CommentsAreNoCode(text: string)
    ensures HasCode(text) <==>
            exists i :: 0 <= i < |Split(text)| && TrimSpace(Split(text)[i]) != "" && !("--" <= TrimSpace(Split(text)[i]))
  {
    if i :| 0 <= i < |Split(text)| && TrimSpace(Split(text)[i]) != "" && !("--" <= TrimSpace(Split(text)[i])) {
      assert !Blank(TrimSpace(Split(text)[i]));
    }
  }

  // ---------------------------------------------------------------------
  // Every statement is clean
  // ---------------------------------------------------------------------

  /** No goose directive, white space aside. */
  predicate IsText(line: string) { !(DIRECTIVE <= TrimSpace(line)) }

  predicate NoDirectiveIn(lines: seq<string>) {
    forall i :: 0 <= i < |lines| ==> IsText(lines[i])
  }

  /** A statement as the reader gives them. */
  predicate Clean(t: string) { Trimmed(t) && HasCode(t) && NoDirectiveIn(Split(t)) }

  lemma TextIsText(line: string)
    ensures KindOf(line).Text? <==> IsText(line)
  {
    assert DIRECTIVE <= UP && DIRECTIVE <= DOWN && DIRECTIVE <= BEGIN && DIRECTIVE <= END;
  }

  lemma {:induction false} TrimLeftKeepsClean(s: string)
    requires NoDirectiveIn(Split(s))
    ensures NoDirectiveIn(Split(TrimLeft(s)))
  {
    if s != "" && IsSpace(s[0]) {
      var l, rest := Split(s), Split(s[1..]);
      if s[0] == '\n' {
        forall i | 0 <= i < |rest| ensures IsText(rest[i]) { assert l[i + 1] == rest[i]; }
      } else {
        TrimSpaceMore(rest[0], s[0]);
        assert l[0] == [s[0]] + rest[0];
        forall i | 0 <= i < |rest| ensures IsText(rest[i]) { assert i > 0 ==> l[i] == rest[i]; }
      }
      TrimLeftKeepsClean(s[1..]);
    }
  }

  lemma {:induction false} TrimRightKeepsClean(s: string)
    requires NoDirectiveIn(Split(s))
    ensures NoDirectiveIn(Split(TrimRight(s)))
  {
    if s != "" && IsSpace(s[|s| - 1]) {
      var front, c := s[..|s| - 1], s[|s| - 1];
      assert s == front + [c];
      var l, f := Split(s), Split(front);
      if c == '\n' {
        assert s == front + "\n" + "";
        SplitNewline(front, "");
        forall i | 0 <= i < |f| ensures IsText(f[i]) { assert l[i] == f[i]; }
      } else {
        var n := |f| - 1;
        SplitAppend(front, c);
        TrimSpaceMore(f[n], c);
        assert l[n] == f[n] + [c];
        forall i | 0 <= i < |f| ensures IsText(f[i]) { assert i < n ==> l[i] == f[i]; }
      }
      TrimRightKeepsClean(front);
    }
  }

  /** What the buffer may hold: lines of the file, none a directive. */
  predicate Held(r: Reader) {
    && NoDirectiveIn(r.buf)
    && (forall i :: 0 <= i < |r.buf| ==> '\n' !in r.buf[i])
    && (forall i :: 0 <= i < |r.stmts| ==> Clean(r.stmts[i]))
  }

  lemma FlushHeld(r: Reader)
    requires Held(r)
    ensures Held(Flush(r))
  {
    var text := Join(r.buf);
    if r.buf == [] { BlankHasNoCode(); } else { SplitOfJoin(r.buf); }
    if HasCode(TrimSpace(text)) {
      TrimSpaceTrims(text);
      TrimLeftKeepsClean(text);
      TrimRightKeepsClean(TrimLeft(text));
    }
  }

  lemma LineHeld(r: Reader, line: string)
    requires Held(r) && '\n' !in line
    ensures Held(Line(r, line))
  {
    FlushHeld(r);
    TextIsText(line);
    if KindOf(line).Text? { FlushHeld(r.(buf := r.buf + [line])); }
  }

  lemma {:induction false} LinesHeld(r: Reader, lines: seq<string>)
    requires Held(r) && forall i :: 0 <= i < |lines| ==> '\n' !in lines[i]
    ensures Held(Lines(r, lines))
  {
    if lines != [] {
      var n := |lines| - 1;
      assert forall i :: 0 <= i < n ==> lines[..n][i] == lines[i];
      LinesHeld(r, lines[..n]);
      LineHeld(Lines(r, lines[..n]), lines[n]);
    }
  }

  /** Each statement is trimmed, has code and holds no goose directive on any line. */
  lemma StatementsAreClean(raw: string)
    ensures forall i :: 0 <= i < |Statements(raw)| ==> Clean(Statements(raw)[i])
  {
    var lines := Split(Unix(raw));
    JoinOfSplit(Unix(raw));
    LinesHeld(START, lines);
    FlushHeld(Lines(START, lines));
  }

  // ---------------------------------------------------------------------
  // Printing and reading back
  // ---------------------------------------------------------------------

  /** The text needs no block: only its last line ends a statement. */
  predicate SelfEnding(t: string) {
    var l := Split(t);
    KindOf(l[|l| - 1]) == Text(true) && forall i :: 0 <= i < |l| - 1 ==> KindOf(l[i]) != Text(true)
  }

  /** A line that is not ended as Windows does. */
  predicate NoReturn(line: string) { NoCRLF(line) && (line == "" || line[|line| - 1] != '\r') }

  /** A statement and how it is printed. */
  datatype Printed = Printed(text: string, block: bool)

  predicate Printable(p: Printed) {
    Clean(p.text) && NoCRLF(p.text) && (p.block || SelfEnding(p.text))
  }

  function PrintOne(p: Printed): string {
    if p.block then BEGIN + "\n" + p.text + "\n" + END else p.text
  }

  /** A migration file of these statements. */
  function Print(ps: seq<Printed>): string {
    if ps == [] then UP else Print(ps[..|ps| - 1]) + "\n" + PrintOne(ps[|ps| - 1])
  }

  function Texts(ps: seq<Printed>): seq<string> {
    if ps == [] then [] else Texts(ps[..|ps| - 1]) + [ps[|ps| - 1].text]
  }

  lemma LineGathers(r: Reader, line: string)
    requires r.inUp && !r.done && IsText(line) && (r.inBlock || KindOf(line) != Text(true))
    ensures Line(r, line) == r.(buf := r.buf + [line])
  {
    TextIsText(line);
  }

  /** In a block, lines gather. Outside it they gather while none ends a statement. */
  lemma {:induction false} LinesGather(r: Reader, lines: seq<string>)
    requires r.inUp && !r.done && NoDirectiveIn(lines)
    requires r.inBlock || forall i :: 0 <= i < |lines| ==> KindOf(lines[i]) != Text(true)
    ensures Lines(r, lines) == r.(buf := r.buf + lines)
  {
    if lines == [] {
      assert r.buf + lines == r.buf;
    } else {
      var n := |lines| - 1;
      assert forall i :: 0 <= i < n ==> lines[..n][i] == lines[i];
      LinesGather(r, lines[..n]);
      LineGathers(r.(buf := r.buf + lines[..n]), lines[n]);
      assert r.buf + lines[..n] + [lines[n]] == r.buf + lines;
    }
  }

  lemma Directives()
    ensures KindOf(UP).Up? && KindOf(BEGIN).Begin? && KindOf(END).End?
    ensures '\n' !in UP && '\n' !in BEGIN && '\n' !in END
    ensures NoReturn(UP) && NoReturn(BEGIN) && NoReturn(END)
  {
    TrimmedStays(UP);
    TrimmedStays(BEGIN);
    TrimmedStays(END);
    assert UP[10] == 'U' && DOWN[10] == 'D' && BEGIN[10] == 'S' && END[10] == 'S';
    assert BEGIN[19] == 'B' && END[19] == 'E';
  }

  /** The text's lines, gathered and flushed, add the text. */
  lemma FlushGives(r: Reader, t: string)
    requires r.buf == Split(t) && Trimmed(t) && HasCode(t)
    ensures Flush(r) == r.(buf := [], stmts := r.stmts + [t])
  {
    JoinOfSplit(t);
    TrimmedStays(t);
  }

  lemma LinesOfBlock(r: Reader, t: string)
    requires Clean(t) && r == Reader(r.stmts, [], true, false, false)
    ensures Lines(r, [BEGIN] + Split(t) + [END]) == r.(stmts := r.stmts + [t])
  {
    var l := Split(t);
    Directives();
    LinesJoin(r, [BEGIN] + l, [END]);
    LinesJoin(r, [BEGIN], l);
    assert [BEGIN][..0] == [] && Lines(r, [BEGIN]) == Line(r, BEGIN) == r.(inBlock := true);
    LinesGather(r.(inBlock := true), l);
    var g := r.(inBlock := true, buf := l);
    assert [] + l == l && Lines(r, [BEGIN] + l) == g;
    assert [END][..0] == [] && Lines(g, [END]) == Line(g, END);
    FlushGives(g, t);
  }

  lemma LinesOfSelfEnding(r: Reader, t: string)
    requires Clean(t) && SelfEnding(t) && r == Reader(r.stmts, [], true, false, false)
    ensures Lines(r, Split(t)) == r.(stmts := r.stmts + [t])
  {
    LinesUntilEnd(r, Split(t));
    FlushGives(r.(buf := Split(t)), t);
  }

  lemma LinesUntilEnd(r: Reader, l: seq<string>)
    requires l != [] && r == Reader(r.stmts, [], true, false, false) && NoDirectiveIn(l)
    requires KindOf(l[|l| - 1]) == Text(true) && forall i :: 0 <= i < |l| - 1 ==> KindOf(l[i]) != Text(true)
    ensures Lines(r, l) == Flush(r.(buf := l))
  {
    var n := |l| - 1;
    LinesGather(r, l[..n]);
    assert [] + l[..n] == l[..n] && l[..n] + [l[n]] == l;
  }

  lemma LinesOfOne(r: Reader, p: Printed)
    requires Printable(p) && r == Reader(r.stmts, [], true, false, false)
    ensures Lines(r, Split(PrintOne(p))) == r.(stmts := r.stmts + [p.text])
  {
    if p.block {
      Directives();
      SplitNewline(BEGIN + "\n" + p.text, END);
      SplitNewline(BEGIN, p.text);
      SplitWord(BEGIN);
      SplitWord(END);
      LinesOfBlock(r, p.text);
    } else {
      LinesOfSelfEnding(r, p.text);
    }
  }

  lemma {:induction false} LinesOfPrint(ps: seq<Printed>)
    requires forall i :: 0 <= i < |ps| ==> Printable(ps[i])
    ensures Lines(START, Split(Print(ps))) == Reader(Texts(ps), [], true, false, false)
  {
    Directives();
    if ps == [] {
      SplitWord(UP);
      assert Lines(START, [UP]) == Line(START, UP);
    } else {
      var n := |ps| - 1;
      var front := ps[..n];
      assert forall i :: 0 <= i < n ==> front[i] == ps[i];
      LinesOfPrint(front);
      SplitNewline(Print(front), PrintOne(ps[n]));
      LinesJoin(START, Split(Print(front)), Split(PrintOne(ps[n])));
      LinesOfOne(Lines(START, Split(Print(front))), ps[n]);
    }
  }

  lemma PrintOneIsUnix(p: Printed)
    requires Printable(p)
    ensures PrintOne(p) != "" && NoReturn(PrintOne(p))
  {
    TextEnds(p.text);
    if p.block {
      Directives();
      NoCRLFJoin(BEGIN, p.text);
      NoCRLFJoin(BEGIN + "\n" + p.text, END);
    }
  }

  lemma NoReturnJoin(a: string, b: string)
    requires NoReturn(a) && NoReturn(b) && b != ""
    ensures NoReturn(a + "\n" + b)
  {
    NoCRLFJoin(a, b);
  }

  /** Nothing printed ends a line as Windows does, and no printed file ends in a return. */
  lemma {:induction false} PrintIsUnix(ps: seq<Printed>)
    requires forall i :: 0 <= i < |ps| ==> Printable(ps[i])
    ensures NoReturn(Print(ps))
  {
    if ps == [] {
      Directives();
    } else {
      var n := |ps| - 1;
      assert forall i :: 0 <= i < n ==> ps[..n][i] == ps[i];
      PrintIsUnix(ps[..n]);
      OneMoreIsUnix(ps);
    }
  }

  lemma OneMoreIsUnix(ps: seq<Printed>)
    requires ps != [] && Printable(ps[|ps| - 1]) && NoReturn(Print(ps[..|ps| - 1]))
    ensures NoReturn(Print(ps))
  {
    var last := ps[|ps| - 1];
    PrintOneIsUnix(last);
    NoReturnJoin(Print(ps[..|ps| - 1]), PrintOne(last));
  }

  lemma TextEnds(t: string)
    requires Clean(t) && NoCRLF(t)
    ensures t != "" && NoReturn(t)
  {
    BlankHasNoCode();
  }

  /** The round trip: a printed file reads back as the statements it was printed from. */
  lemma RoundTrip(ps: seq<Printed>)
    requires forall i :: 0 <= i < |ps| ==> Printable(ps[i])
    ensures Statements(Print(ps)) == Texts(ps)
  {
    PrintIsUnix(ps);
    UnixStays(Print(ps));
    LinesOfPrint(ps);
    BlankHasNoCode();
  }

  /** Each statement in a block of its own. */
  function Blocks(ts: seq<string>): (ps: seq<Printed>)
    ensures |ps| == |ts| && forall i :: 0 <= i < |ts| ==> ps[i] == Printed(ts[i], true)
  {
    if ts == [] then [] else Blocks(ts[..|ts| - 1]) + [Printed(ts[|ts| - 1], true)]
  }

  lemma {:induction false} TextsOfBlocks(ts: seq<string>)
    ensures Texts(Blocks(ts)) == ts
  {
    if ts != [] {
      TextsOfBlocks(ts[..|ts| - 1]);
      assert Blocks(ts)[..|ts| - 1] == Blocks(ts[..|ts| - 1]);
    }
  }

  predicate IsUnix(r: Reader) {
    && (forall i :: 0 <= i < |r.buf| ==> NoReturn(r.buf[i]))
    && (forall i :: 0 <= i < |r.stmts| ==> NoCRLF(r.stmts[i]))
  }

  lemma LineIsUnix(r: Reader, line: string)
    requires IsUnix(r) && NoReturn(line)
    ensures IsUnix(Line(r, line))
  {
    FlushIsUnix(r);
    var more := r.(buf := r.buf + [line]);
    GatherIsUnix(r, line);
    FlushIsUnix(more);
    LineGives(r, line);
  }

  /** What a line leaves gathered and read. */
  lemma LineGives(r: Reader, line: string)
    ensures var q, more := Line(r, line), r.(buf := r.buf + [line]);
            || (q.buf == r.buf && q.stmts == r.stmts)
            || (q.buf == [] && q.stmts == r.stmts)
            || (q.buf == [] && q.stmts == Flush(r).stmts)
            || (q.buf == more.buf && q.stmts == r.stmts)
            || (q.buf == [] && q.stmts == Flush(more).stmts)
  {
  }

  lemma GatherIsUnix(r: Reader, line: string)
    requires IsUnix(r) && NoReturn(line)
    ensures IsUnix(r.(buf := r.buf + [line]))
  {
  }

  lemma {:induction false} BufferIsUnix(r: Reader, lines: seq<string>)
    requires IsUnix(r) && forall i :: 0 <= i < |lines| ==> NoReturn(lines[i])
    ensures IsUnix(Lines(r, lines))
  {
    if lines != [] {
      var n := |lines| - 1;
      assert forall i :: 0 <= i < n ==> lines[..n][i] == lines[i];
      BufferIsUnix(r, lines[..n]);
      LineIsUnix(Lines(r, lines[..n]), lines[n]);
    }
  }

  lemma {:induction false} JoinIsUnix(lines: seq<string>)
    requires forall i :: 0 <= i < |lines| ==> NoReturn(lines[i])
    ensures NoCRLF(Join(lines))
  {
    if |lines| > 1 {
      JoinIsUnix(lines[1..]);
      NoCRLFJoin(lines[0], Join(lines[1..]));
    }
  }

  lemma FlushIsUnix(r: Reader)
    requires IsUnix(r)
    ensures IsUnix(Flush(r))
  {
    JoinIsUnix(r.buf);
    TrimSpaceTrims(Join(r.buf));
  }

  /** Reading is a normal form: what was read, printed and read again, is itself. */
  lemma ReadingIsStable(raw: string)
    requires forall i :: 0 <= i < |Split(Unix(raw))| ==> NoReturn(Split(Unix(raw))[i])
    ensures Statements(Print(Blocks(Statements(raw)))) == Statements(raw)
  {
    var lines := Split(Unix(raw));
    StatementsAreClean(raw);
    BufferIsUnix(START, lines);
    FlushIsUnix(Lines(START, lines));
    RoundTrip(Blocks(Statements(raw)));
    TextsOfBlocks(Statements(raw));
  }
}
