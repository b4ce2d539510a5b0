/** What two smaller machines compute: titles from operating system commands, and characters from designated sets. */
module Titles {
  import opened Rendering
  import opened Screen
  import opened Emulator
  import opened Shape
  import opened ControlSequences

  // ---------------------------------------------------------------- titles

  /** A state inside an operating system command: the number alone, or the number put aside and a text. */
  function Commanding(s: State, params: seq<nat>, n: nat, text: string): State {
    s.(parser := Parser(Osc, params, n, text, ""))
  }

  lemma CommandingShape(s: State, params: seq<nat>, n: nat, text: string)
    requires Writing(s)
    ensures Writing(Commanding(s, params, n, text))
  {
    hide Writing;
    CursorInside(s);
    SmallShape(s, s.queue, s.savedX, s.savedY, s.charsets, Parser(Osc, params, n, text, ""), s.title);
  }

  lemma CommandOpens(s: State, rest: string)
    requires Ready(s)
    ensures Writing(Commanding(s, [], 0, "")) && Run(s, [ESC, ']'] + rest) == Run(Commanding(s, [], 0, ""), rest)
  {
    hide Writing, Run, ScreenEscape, IndexLine, Print;
    InModeShape(s, Escaped);
    CommandingShape(s, [], 0, "");
    RunStep(s, ESC, [']'] + rest);
    assert [ESC, ']'] + rest == [ESC] + ([']'] + rest);
    assert Step(InMode(s, Escaped), ']') == Commanding(s, [], 0, "");
    RunStep(InMode(s, Escaped), ']', rest);
  }

  lemma {:induction false} CommandDecimal(s: State, n: nat, rest: string)
    requires Writing(s)
    ensures Writing(Commanding(s, [], 0, "")) && Writing(Commanding(s, [], n, ""))
    ensures Run(Commanding(s, [], 0, ""), Decimal(n) + rest) == Run(Commanding(s, [], n, ""), rest)
    decreases n
  {
    hide Writing, Run;
    CommandingShape(s, [], 0, "");
    CommandingShape(s, [], n, "");
    if n < 10 {
      RunStep(Commanding(s, [], 0, ""), Digit(n), rest);
    } else {
      CommandDecimal(s, n / 10, [Digit(n % 10)] + rest);
      assert Decimal(n) + rest == Decimal(n / 10) + ([Digit(n % 10)] + rest);
      RunStep(Commanding(s, [], n / 10, ""), Digit(n % 10), rest);
    }
  }

  predicate PlainText(text: string) {
    forall i | 0 <= i < |text| :: text[i] != ESC && text[i] != BEL
  }

  lemma {:induction false} CommandText(s: State, n: nat, done: string, text: string, rest: string)
    requires Writing(s) && PlainText(text)
    ensures Writing(Commanding(s, [n], 0, done)) && Writing(Commanding(s, [n], 0, done + text))
    ensures Run(Commanding(s, [n], 0, done), text + rest) == Run(Commanding(s, [n], 0, done + text), rest)
    decreases |text|
  {
    hide Writing, Run;
    CommandingShape(s, [n], 0, done);
    CommandingShape(s, [n], 0, done + text);
    if text == "" {
      assert text + rest == rest && done + text == done;
    } else {
      CommandingShape(s, [n], 0, done + [text[0]]);
      assert text + rest == [text[0]] + (text[1..] + rest);
      RunStep(Commanding(s, [n], 0, done), text[0], text[1..] + rest);
      CommandText(s, n, done + [text[0]], text[1..], rest);
      assert done + [text[0]] + text[1..] == done + text;
    }
  }

  lemma CommandCloses(s: State, n: nat, text: string)
    requires Ready(s)
    ensures Writing(Commanding(s, [n], 0, text))
    ensures Run(Commanding(s, [n], 0, text), [BEL])
         == s.(parser := INITIAL_PARSER, title := if n <= 2 && text != "" then text else s.title)
    ensures Ready(s.(parser := INITIAL_PARSER, title := if n <= 2 && text != "" then text else s.title))
  {
    hide Writing, Run;
    CommandingShape(s, [n], 0, text);
    CursorInside(s);
    var t := s.(parser := INITIAL_PARSER, title := if n <= 2 && text != "" then text else s.title);
    SmallShape(s, s.queue, s.savedX, s.savedY, s.charsets, INITIAL_PARSER, t.title);
    assert [BEL] == [BEL] + "";
    RunStep(Commanding(s, [n], 0, text), BEL, "");
    RunEnds(t);
  }

  /**
   ESC ] n ; text BEL makes the text the title if and only if n is at most 2 and the text is not empty; nothing else
   changes.
   */
  lemma TitleIsSet(s: State, n: nat, text: string)
    requires Ready(s) && PlainText(text)
    ensures var t := Run(s, [ESC, ']'] + Decimal(n) + [';'] + text + [BEL]);
            && Ready(t)
            && t == s.(parser := INITIAL_PARSER, title := if n <= 2 && text != "" then text else s.title)
  {
    hide Writing, Run, Decimal;
    var rest := text + [BEL];
    assert [ESC, ']'] + Decimal(n) + [';'] + text + [BEL] == [ESC, ']'] + (Decimal(n) + ([';'] + rest));
    CommandOpens(s, Decimal(n) + ([';'] + rest));
    CommandDecimal(s, n, [';'] + rest);
    CommandingShape(s, [n], 0, "");
    RunStep(Commanding(s, [], n, ""), ';', rest);
    CommandText(s, n, "", text, [BEL]);
    assert "" + text == text;
    CommandCloses(s, n, text);
  }

  // ---------------------------------------------------------------- character sets

  /** The character that designates set g. */
  function Designator(g: nat): char
    requires g < 4
  {
    if g == 0 then '(' else if g == 1 then ')' else if g == 2 then '*' else '+'
  }

  function Table(s: State, t: char): map<char, char> {
    if t == '0' then s.env.lineDrawing else map[]
  }

  function Translated(table: map<char, char>, ch: char): char {
    if ch in table then table[ch] else ch
  }

  /** Set g holds the table, which is in force at once if g is the set in use. */
  function WithTable(cs: Charsets, g: nat, table: map<char, char>): Charsets
    requires g < |cs.tables|
  {
    cs.(tables := cs.tables[g := table], active := if cs.glevel == g then table else cs.active, gcharset := -1)
  }

  /** The state after ESC and a designator. */
  function Designating(s: State, g: nat): State {
    s.(charsets := s.charsets.(gcharset := g), parser := s.parser.(mode := Charset))
  }

  lemma DesignatorRun(s: State, g: nat, rest: string)
    requires Ready(s) && g < 4
    ensures Writing(Designating(s, g)) && Run(s, [ESC, Designator(g)] + rest) == Run(Designating(s, g), rest)
  {
    hide Writing, Run, IndexLine, ReverseIndexLine, Reset;
    CursorInside(s);
    CharsetsAreFour(s);
    InModeShape(s, Escaped);
    var d := Designating(s, g);
    SmallShape(s, s.queue, s.savedX, s.savedY, d.charsets, d.parser, s.title);
    assert [ESC, Designator(g)] + rest == [ESC] + ([Designator(g)] + rest);
    RunStep(s, ESC, [Designator(g)] + rest);
    RunStep(InMode(s, Escaped), Designator(g), rest);
  }

  lemma DesignateRun(s: State, g: nat, t: char, rest: string)
    requires Ready(s) && g < 4 && t != '/'
    ensures |s.charsets.tables| == 4
    ensures var u := s.(charsets := WithTable(s.charsets, g, Table(s, t)));
            Ready(u) && Run(s, [ESC, Designator(g), t] + rest) == Run(u, rest)
  {
    hide Writing, Run;
    CursorInside(s);
    CharsetsAreFour(s);
    var u := s.(charsets := WithTable(s.charsets, g, Table(s, t)));
    SmallShape(s, s.queue, s.savedX, s.savedY, u.charsets, u.parser, s.title);
    assert [ESC, Designator(g), t] + rest == [ESC, Designator(g)] + ([t] + rest);
    DesignatorRun(s, g, [t] + rest);
    RunStep(Designating(s, g), t, rest);
  }

  /** SI and SO put set 0 and set 1 to use. */
  function Shift(g: nat): char {
    if g == 0 then SI else SO
  }

  lemma ShiftRun(s: State, g: nat, rest: string)
    requires Ready(s) && g < 2
    ensures |s.charsets.tables| == 4
    ensures var u := s.(charsets := s.charsets.(glevel := g, active := s.charsets.tables[g]));
            Ready(u) && Run(s, [Shift(g)] + rest) == Run(u, rest)
  {
    hide Writing, Run, IndexLine, Print;
    CursorInside(s);
    CharsetsAreFour(s);
    var u := s.(charsets := s.charsets.(glevel := g, active := s.charsets.tables[g]));
    SmallShape(s, s.queue, s.savedX, s.savedY, u.charsets, s.parser, s.title);
    RunStep(s, Shift(g), rest);
  }

  /** A printing character is put, translated, left of the new cursor. */
  lemma PrintRun(s: State, ch: char)
    requires Ready(s) && ch >= ' '
    ensures var t := Run(s, [ch]);
            && Writing(t) && 0 < t.buf.x <= t.cols && 0 <= t.buf.ybase + t.buf.y < |t.buf.lines|
            && t.cols <= |VisibleLine(t.buf, t.buf.y)|
            && VisibleLine(t.buf, t.buf.y)[t.buf.x - 1] == Cell(s.curAttr, Translated(s.charsets.active, ch))
  {
    hide Writing, Run, Wrap, BufferOk;
    PrintShape(s, ch);
    WrapIsOk(s);
    var w := Wrap(s);
    CursorInside(w);
    CursorRowInside(w);
    var t := Print(s, ch);
    CursorRowInside(t);
    CursorInside(t);
    assert [ch] + "" == [ch];
    RunStep(s, ch, "");
    RunEnds(t);
  }

  /**
   Designating a set translates the next character exactly if that set is in use; otherwise the set in use goes on
   translating it.
   */
  lemma DesignatedTranslates(s: State, g: nat, t: char, ch: char)
    requires Ready(s) && g < 4 && t != '/' && ch >= ' '
    ensures var r := Run(s, [ESC, Designator(g), t] + [ch]);
            && Writing(r) && 0 < r.buf.x <= r.cols && 0 <= r.buf.ybase + r.buf.y < |r.buf.lines|
            && r.cols <= |VisibleLine(r.buf, r.buf.y)|
            && VisibleLine(r.buf, r.buf.y)[r.buf.x - 1]
               == Cell(s.curAttr, Translated(if s.charsets.glevel == g then Table(s, t) else s.charsets.active, ch))
  {
    hide Writing, Run;
    DesignateRun(s, g, t, [ch]);
    PrintRun(s.(charsets := WithTable(s.charsets, g, Table(s, t))), ch);
  }

  /** Designating set 0 or 1 and shifting to it translates the next character by its table, whatever was in use. */
  lemma DesignatedAndShiftedTranslates(s: State, g: nat, t: char, ch: char)
    requires Ready(s) && g < 2 && t != '/' && ch >= ' '
    ensures var r := Run(s, [ESC, Designator(g), t] + ([Shift(g)] + [ch]));
            && Writing(r) && 0 < r.buf.x <= r.cols && 0 <= r.buf.ybase + r.buf.y < |r.buf.lines|
            && r.cols <= |VisibleLine(r.buf, r.buf.y)|
            && VisibleLine(r.buf, r.buf.y)[r.buf.x - 1] == Cell(s.curAttr, Translated(Table(s, t), ch))
  {
    hide Writing, Run;
    DesignateRun(s, g, t, [Shift(g)] + [ch]);
    var u := s.(charsets := WithTable(s.charsets, g, Table(s, t)));
    ShiftRun(u, g, [ch]);
    PrintRun(u.(charsets := u.charsets.(glevel := g, active := u.charsets.tables[g])), ch);
  }
}
