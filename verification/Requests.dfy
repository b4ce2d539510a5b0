/** The device control strings that are answered, with any text. */
module Requests {
  import opened Emulator
  import opened Shape
  import opened ControlSequences
  import opened Titles

  /** A text that opens like a request. */
  predicate Signed(text: string) {
    text != "" && (text[0] == '$' || text[0] == '+')
  }

  lemma {:induction false} RequestText(s: State, prefix: string, done: string, text: string, rest: string)
    requires Writing(s) && PlainText(text) && (|prefix| == 2 || (prefix == "" && (done != "" || !Signed(text))))
    ensures Writing(Requesting(s, prefix, done)) && Writing(Requesting(s, prefix, done + text))
    ensures Run(Requesting(s, prefix, done), text + rest) == Run(Requesting(s, prefix, done + text), rest)
    decreases |text|
  {
    hide Writing, Run;
    RequestingShape(s, prefix, done);
    RequestingShape(s, prefix, done + text);
    if text == "" {
      assert text + rest == rest && done + text == done;
    } else {
      RequestingShape(s, prefix, done + [text[0]]);
      assert text + rest == [text[0]] + (text[1..] + rest);
      assert done == "" ==> done + [text[0]] == [text[0]];
      assert Step(Requesting(s, prefix, done), text[0]) == Requesting(s, prefix, done + [text[0]]);
      RunStep(Requesting(s, prefix, done), text[0], text[1..] + rest);
      RequestText(s, prefix, done + [text[0]], text[1..], rest);
      assert done + [text[0]] + text[1..] == done + text;
    }
  }

  /** The state after DCS, a sign and another character: inside the request, with nothing read of its text. */
  lemma RequestPrefix(s: State, sign: char, second: char, rest: string)
    requires Ready(s) && (sign == '$' || sign == '+') && PlainText([second])
    ensures Writing(Requesting(s, [sign, second], ""))
    ensures Run(s, [27 as char, 'P', sign, second] + rest) == Run(Requesting(s, [sign, second], ""), rest)
  {
    hide Writing, Run;
    RequestingShape(s, "", "");
    RequestingShape(s, [sign], "");
    RequestingShape(s, [sign, second], "");
    assert [27 as char, 'P', sign, second] + rest == [ESC, 'P'] + ([sign] + ([second] + rest));
    RequestOpens(s, [sign] + ([second] + rest));
    assert "" + [sign] == [sign] && [sign] + [second] == [sign, second];
    RunStep(Requesting(s, "", ""), sign, [second] + rest);
    assert PlainText([second]) && [second][0] == second;
    RunStep(Requesting(s, [sign], ""), second, rest);
  }

  /** ESC \ ends the request with a reply. */
  lemma RequestEnds(s: State, prefix: string, text: string)
    requires Ready(s)
    ensures 0 <= s.buf.scrollTop && 0 <= s.buf.scrollBottom && Writing(Requesting(s, prefix, text))
    ensures Run(Requesting(s, prefix, text), [27 as char, '\\'])
         == s.(parser := INITIAL_PARSER, queue := DcsReply(s.queue, prefix, text, s.buf.scrollTop, s.buf.scrollBottom))
  {
    hide Writing, DcsReply;
    CursorInside(s);
    RequestingShape(s, prefix, text);
    var end := s.(parser := INITIAL_PARSER,
                  queue := DcsReply(s.queue, prefix, text, s.buf.scrollTop, s.buf.scrollBottom));
    SmallShape(s, end.queue, s.savedX, s.savedY, s.charsets, end.parser, s.title);
    assert Step(Requesting(s, prefix, text), ESC) == end;
    assert Drop([ESC, '\\'], 2) == [];
    RunEnds(end);
  }

  lemma RequestRun(s: State, sign: char, second: char, text: string)
    requires Ready(s) && (sign == '$' || sign == '+') && PlainText([second] + text)
    ensures 0 <= s.buf.scrollTop && 0 <= s.buf.scrollBottom
    ensures Run(s, [27 as char, 'P', sign, second] + (text + [27 as char, '\\']))
         == s.(parser := INITIAL_PARSER,
               queue := DcsReply(s.queue, [sign, second], text, s.buf.scrollTop, s.buf.scrollBottom))
  {
    hide Writing, Run, DcsReply;
    assert ([second] + text)[0] == second && ([second] + text)[1..] == text;
    RequestPrefix(s, sign, second, text + [27 as char, '\\']);
    RequestText(s, [sign, second], "", text, [27 as char, '\\']);
    assert "" + text == text;
    RequestEnds(s, [sign, second], text);
  }

  /** What DECRQSS answers to a text, between ESC P 0 $ r and ESC \. */
  function Setting(s: State, text: string): string
    requires 0 <= s.buf.scrollTop && 0 <= s.buf.scrollBottom
  {
    if text == ['"', 'q'] then ['0', '"', 'q']
    else if text == ['"', 'p'] then ['6', '1', '"', 'p']
    else if text == "r" then Decimal(s.buf.scrollTop + 1) + ";" + Decimal(s.buf.scrollBottom + 1) + "r"
    else if text == "m" then "0m"
    else ""
  }

  /** DECRQSS: protection, conformance level, margins and attribute are answered, everything else with nothing. */
  lemma StatusAnswer(s: State, text: string)
    requires Ready(s) && PlainText(text)
    ensures 0 <= s.buf.scrollTop && 0 <= s.buf.scrollBottom
    ensures var t := Run(s, [27 as char] + "P$q" + text + [27 as char, '\\']);
            && t == s.(parser := INITIAL_PARSER, queue := t.queue)
            && t.queue == s.queue + ([27 as char] + "P0$r" + Setting(s, text) + [27 as char, '\\'])
  {
    hide Writing, Run, Decimal;
    assert [27 as char] + "P$q" + text + [27 as char, '\\']
        == [27 as char, 'P', '$', 'q'] + (text + [27 as char, '\\']);
    RequestRun(s, '$', 'q', text);
    assert ['$', 'q'] == "$q" && [ESC] + "\\" == [27 as char, '\\'];
    assert StatusReply(text, s.buf.scrollTop, s.buf.scrollBottom) == Setting(s, text);
  }

  /** A termcap request is answered with its own text, or with 0 if it has none, and as invalid. */
  lemma TermcapAnswer(s: State, text: string)
    requires Ready(s) && PlainText(text)
    ensures var t := Run(s, [27 as char] + "P+q" + text + [27 as char, '\\']);
            && t == s.(parser := INITIAL_PARSER, queue := t.queue)
            && t.queue == s.queue + ([27 as char] + "P0+r" + (if text == "" then "0" else text) + [27 as char, '\\'])
  {
    hide Writing, Run;
    assert [27 as char] + "P+q" + text + [27 as char, '\\']
        == [27 as char, 'P', '+', 'q'] + (text + [27 as char, '\\']);
    RequestRun(s, '+', 'q', text);
    assert ['+', 'q'] == "+q" && [ESC] + "\\" == [27 as char, '\\'];
  }

  /** No other request is answered. */
  lemma OtherRequests(s: State, sign: char, second: char, text: string)
    requires Ready(s) && (sign == '$' || sign == '+') && second != 'q' && PlainText([second] + text)
    ensures Run(s, [27 as char, 'P', sign, second] + (text + [27 as char, '\\'])) == s.(parser := INITIAL_PARSER)
  {
    hide Writing, Run;
    RequestRun(s, sign, second, text);
    assert [sign, second][1] == second;
  }

  /** Nor is a string that does not open like a request. */
  lemma UnsignedStrings(s: State, text: string)
    requires Ready(s) && PlainText(text) && !Signed(text)
    ensures Run(s, [27 as char, 'P'] + (text + [27 as char, '\\'])) == s.(parser := INITIAL_PARSER)
  {
    hide Writing, Run;
    RequestOpens(s, text + [27 as char, '\\']);
    RequestText(s, "", "", text, [27 as char, '\\']);
    assert "" + text == text;
    RequestEnds(s, "", text);
  }
}
