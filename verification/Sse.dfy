/** The server-sent events the dashboard writes (cmd/ui/handlers/dashboard.go,
    writeSSE), against the event stream interpretation of section 9.2.6 of the
    WHATWG HTML Standard. */
module Sse {

  const LF: char := '\n'
  const CR: char := '\r'

  datatype Message = Message(event: string, data: string)

  // ----- The writer -----

  /** strings.ReplaceAll(data, "\n", "\ndata: "). */
  function ContinueLines(data: string): string {
    if |data| == 0 then ""
    else if data[0] == LF then "\ndata: " + ContinueLines(data[1..])
    else [data[0]] + ContinueLines(data[1..])
  }

  function WriteSse(m: Message): string { "event: " + m.event + "\ndata: " + ContinueLines(m.data) + "\n\n" }

  function WriteAll(ms: seq<Message>): string {
    if |ms| == 0 then "" else WriteSse(ms[0]) + WriteAll(ms[1..])
  }

  // ----- The parser -----

  predicate IsBreak(c: char) { c == LF || c == CR }

  /** The lines of a stream: each ended by CR LF, LF or CR; what follows the last
      line end is not a line. */
  function Lines(s: string): seq<string> { LinesFrom("", s) }

  /** The lines when `line` of the current one has already been read. */
  function LinesFrom(line: string, s: string): seq<string>
    decreases |s|
  {
    if |s| == 0 then []
    else if s[0] == CR && |s| > 1 && s[1] == LF then [line] + LinesFrom("", s[2..])
    else if IsBreak(s[0]) then [line] + LinesFrom("", s[1..])
    else LinesFrom(line + [s[0]], s[1..])
  }

  /** The position of the first colon, or the length. */
  function Colon(line: string): (i: nat)
    ensures i <= |line|
  {
    if |line| == 0 || line[0] == ':' then 0 else 1 + Colon(line[1..])
  }

  function Field(line: string): string { line[..Colon(line)] }

  /** The value of a field: what follows the colon, without one leading space. */
  function FieldValue(line: string): string {
    var i := Colon(line);
    if i == |line| then ""
    else if i + 1 < |line| && line[i + 1] == ' ' then line[i + 2..]
    else line[i + 1..]
  }

  /** The buffers of the parser, and the messages dispatched so far. */
  datatype Parser = Parser(eventType: string, data: string, out: seq<Message>)

  const FRESH: Parser := Parser("", "", [])

  /** A blank line: nothing happens without data; otherwise one trailing line feed
      goes and the event is dispatched, "message" being its type when none was set. */
  function Dispatch(p: Parser): Parser {
    if p.data == "" then Parser("", "", p.out)
    else
      var data := if p.data[|p.data| - 1] == LF then p.data[..|p.data| - 1] else p.data;
      Parser("", "", p.out + [Message(if p.eventType == "" then "message" else p.eventType, data)])
  }

  /** One line. Comments and unknown fields do nothing; id and retry set what no
      dispatched message carries. */
  function ProcessLine(p: Parser, line: string): Parser {
    if line == "" then Dispatch(p)
    else if line[0] == ':' then p
    else if Field(line) == "event" then p.(eventType := FieldValue(line))
    else if Field(line) == "data" then p.(data := p.data + FieldValue(line) + [LF])
    else p
  }

  function ProcessLines(p: Parser, lines: seq<string>): Parser
    decreases |lines|
  {
    if |lines| == 0 then p else ProcessLines(ProcessLine(p, lines[0]), lines[1..])
  }

  /** The messages of a whole stream; buffers that were not dispatched are dropped. */
  function Parse(s: string): seq<Message> { ProcessLines(FRESH, Lines(s)).out }

  // ----- The round trip -----

  predicate BreakFree(s: string) { CR !in s && LF !in s }

  /** What the writer can carry. */
  predicate Carried(m: Message) { m.event != "" && BreakFree(m.event) && CR !in m.data }

  lemma {:induction false} OneLine(line: string, text: string, rest: string)
    requires BreakFree(text)
    ensures LinesFrom(line, text + [LF] + rest) == [line + text] + Lines(rest)
    decreases |text|
  {
    var s := text + [LF] + rest;
    if |text| == 0 {
      assert s[0] == LF && s[1..] == rest && line + text == line;
    } else {
      assert s[0] == text[0] && text[0] in text;
      assert s[1..] == text[1..] + [LF] + rest;
      OneLine(line + [text[0]], text[1..], rest);
      assert line + [text[0]] + text[1..] == line + text;
    }
  }

  /** The data lines of a message: one for each line feed in the data, and one more. */
  function DataLines(line: string, data: string): seq<string>
    decreases |data|
  {
    if |data| == 0 then [line]
    else if data[0] == LF then [line] + DataLines("data: ", data[1..])
    else DataLines(line + [data[0]], data[1..])
  }

  lemma {:induction false} DataAsLines(line: string, data: string, rest: string)
    requires CR !in data
    ensures LinesFrom(line, ContinueLines(data) + [LF] + rest) == DataLines(line, data) + Lines(rest)
    decreases |data|
  {
    var s := ContinueLines(data) + [LF] + rest;
    if |data| == 0 {
      assert s[0] == LF && s[1..] == rest;
    } else if data[0] == LF {
      var more := ContinueLines(data[1..]);
      assert s == [LF] + "data: " + (more + [LF] + rest);
      assert s[0] == LF && s[1..] == "data: " + (more + [LF] + rest);
      PrefixLine("data: ", more + [LF] + rest);
      DataAsLines("data: ", data[1..], rest);
      assert [line] + (DataLines("data: ", data[1..]) + Lines(rest)) == DataLines(line, data) + Lines(rest);
    } else {
      assert data[0] in data;
      assert s[0] == data[0] && s[1..] == ContinueLines(data[1..]) + [LF] + rest;
      DataAsLines(line + [data[0]], data[1..], rest);
    }
  }

  lemma {:induction false} PrefixLine(text: string, rest: string)
    requires BreakFree(text)
    ensures Lines(text + rest) == LinesFrom(text, rest)
  {
    PrefixLineFrom("", text, rest);
    assert "" + text == text;
  }

  lemma {:induction false} PrefixLineFrom(line: string, text: string, rest: string)
    requires BreakFree(text)
    ensures LinesFrom(line, text + rest) == LinesFrom(line + text, rest)
    decreases |text|
  {
    if |text| == 0 {
      assert text + rest == rest && line + text == line;
    } else {
      assert text[0] in text && (text + rest)[0] == text[0] && (text + rest)[1..] == text[1..] + rest;
      PrefixLineFrom(line + [text[0]], text[1..], rest);
      assert line + [text[0]] + text[1..] == line + text;
    }
  }

  lemma WriteAsLines(m: Message, rest: string)
    requires Carried(m)
    ensures Lines(WriteSse(m) + rest) == ["event: " + m.event] + DataLines("data: ", m.data) + [""] + Lines(rest)
  {
    var body := "data: " + (ContinueLines(m.data) + [LF] + ([LF] + rest));
    assert WriteSse(m) + rest == ("event: " + m.event) + [LF] + body;
    OneLine("", "event: " + m.event, body);
    assert "" + ("event: " + m.event) == "event: " + m.event;
    PrefixLine("data: ", ContinueLines(m.data) + [LF] + ([LF] + rest));
    DataAsLines("data: ", m.data, [LF] + rest);
    OneLine("", "", rest);
    assert "" + [LF] + rest == [LF] + rest;
    assert "" + "" == "";
  }

  lemma {:induction false} ProcessConcat(p: Parser, a: seq<string>, b: seq<string>)
    ensures ProcessLines(p, a + b) == ProcessLines(ProcessLines(p, a), b)
    decreases |a|
  {
    if |a| == 0 {
      assert a + b == b;
    } else {
      assert (a + b)[1..] == a[1..] + b;
      ProcessConcat(ProcessLine(p, a[0]), a[1..], b);
    }
  }

  lemma DataLine(p: Parser, text: string)
    ensures ProcessLine(p, "data: " + text) == p.(data := p.data + text + [LF])
  {
    var line := "data: " + text;
    ColonAfter("data", " " + text);
    assert line == "data" + ":" + (" " + text);
    assert line[..4] == "data" && line[6..] == text;
  }

  lemma EventLine(p: Parser, name: string)
    ensures ProcessLine(p, "event: " + name) == p.(eventType := name)
  {
    var line := "event: " + name;
    ColonAfter("event", " " + name);
    assert line == "event" + ":" + (" " + name);
    assert line[..5] == "event" && line[7..] == name;
  }

  lemma {:induction false} ColonAfter(field: string, rest: string)
    requires ':' !in field
    ensures Colon(field + ":" + rest) == |field|
  {
    var s := field + ":" + rest;
    if |field| == 0 {
    } else {
      assert s[0] == field[0] && field[0] in field;
      assert s[1..] == field[1..] + ":" + rest;
      ColonAfter(field[1..], rest);
    }
  }

  lemma OneCharMore(before: string, text: string, data: string)
    requires |data| > 0
    ensures before + text + [data[0]] == before + (text + [data[0]])
    ensures before + (text + [data[0]]) + data[1..] == before + text + data
  {
    assert data == [data[0]] + data[1..];
  }

  /** The data lines put the data, and one line feed, into the data buffer. */
  lemma {:induction false} DataRebuilt(p: Parser, text: string, data: string)
    ensures ProcessLines(p, DataLines("data: " + text, data)) == p.(data := p.data + text + data + [LF])
    decreases |data|
  {
    hide ProcessLine;
    var line := "data: " + text;
    if |data| == 0 {
      DataLine(p, text);
      assert ProcessLines(p, [line]) == ProcessLine(p, line) by {
        assert [line][1..] == [];
      }
      assert text + data == text;
    } else if data[0] == LF {
      DataLine(p, text);
      var q := p.(data := p.data + text + [LF]);
      var more := DataLines("data: ", data[1..]);
      assert ([line] + more)[1..] == more;
      DataRebuilt(q, "", data[1..]);
      assert "data: " + "" == "data: ";
      assert q.data + "" + data[1..] == p.data + text + data;
    } else {
      OneCharMore("data: ", text, data);
      OneCharMore(p.data, text, data);
      DataRebuilt(p, text + [data[0]], data[1..]);
      hide DataLines, ProcessLines;
    }
  }

  lemma OneMessage(p: Parser, m: Message)
    requires m.event != "" && p.eventType == "" && p.data == ""
    ensures ProcessLines(p, ["event: " + m.event] + DataLines("data: ", m.data) + [""]) == p.(out := p.out + [m])
  {
    var first, body := ["event: " + m.event], DataLines("data: ", m.data);
    ProcessConcat(p, first + body, [""]);
    ProcessConcat(p, first, body);
    EventLine(p, m.event);
    assert first[1..] == [];
    var q := p.(eventType := m.event);
    assert ProcessLines(p, first) == q;
    DataRebuilt(q, "", m.data);
    assert "data: " + "" == "data: ";
    assert "" + "" + m.data + [LF] == m.data + [LF];
    var r := q.(data := m.data + [LF]);
    assert r.data[..|r.data| - 1] == m.data;
    assert ProcessLines(r, [""]) == Dispatch(r) by {
      assert [""][1..] == [];
    }
  }

  lemma {:induction false} StreamParses(p: Parser, ms: seq<Message>)
    requires forall i :: 0 <= i < |ms| ==> Carried(ms[i])
    requires p.eventType == "" && p.data == ""
    ensures ProcessLines(p, Lines(WriteAll(ms))) == p.(out := p.out + ms)
    decreases |ms|
  {
    if |ms| == 0 {
      assert p.out + ms == p.out;
    } else {
      var m := ms[0];
      WriteAsLines(m, WriteAll(ms[1..]));
      var head := ["event: " + m.event] + DataLines("data: ", m.data) + [""];
      ProcessConcat(p, head, Lines(WriteAll(ms[1..])));
      OneMessage(p, m);
      StreamParses(p.(out := p.out + [m]), ms[1..]);
      assert p.out + [m] + ms[1..] == p.out + ms;
    }
  }

  // ----- What a parser can yield -----

  predicate Clean(s: string) { CR !in s }

  predicate ParserClean(p: Parser) {
    && BreakFree(p.eventType) && Clean(p.data)
    && forall i :: 0 <= i < |p.out| ==> Carried(p.out[i])
  }

  lemma {:induction false} LinesAreBreakFree(line: string, s: string)
    requires BreakFree(line)
    ensures forall i :: 0 <= i < |LinesFrom(line, s)| ==> BreakFree(LinesFrom(line, s)[i])
    decreases |s|
  {
    if |s| == 0 {
    } else {
      if s[0] == CR && |s| > 1 && s[1] == LF {
        LinesAreBreakFree("", s[2..]);
      } else if IsBreak(s[0]) {
        LinesAreBreakFree("", s[1..]);
      } else {
        LinesAreBreakFree(line + [s[0]], s[1..]);
      }
    }
  }

  lemma LineKeepsClean(p: Parser, line: string)
    requires ParserClean(p) && BreakFree(line)
    ensures ParserClean(ProcessLine(p, line))
  {
    var v := FieldValue(line);
    assert BreakFree(v) by {
      assert forall c :: c in v ==> c in line;
    }
    assert BreakFree("message");
    var d := p.data;
    if d != "" {
      assert forall c :: c in d[..|d| - 1] ==> c in d;
    }
  }

  lemma {:induction false} LinesKeepClean(p: Parser, lines: seq<string>)
    requires ParserClean(p) && forall i :: 0 <= i < |lines| ==> BreakFree(lines[i])
    ensures ParserClean(ProcessLines(p, lines))
    decreases |lines|
  {
    if |lines| == 0 {
    } else {
      LineKeepsClean(p, lines[0]);
      LinesKeepClean(ProcessLine(p, lines[0]), lines[1..]);
    }
  }

  /** Parsing what was written gives back exactly the messages written if and only
      if every event name is non-empty and free of line breaks and every data text
      is free of carriage returns; empty data, trailing line feeds and leading
      spaces all survive. */
  lemma RoundTrip(ms: seq<Message>)
    ensures Parse(WriteAll(ms)) == ms <==> forall i :: 0 <= i < |ms| ==> Carried(ms[i])
  {
    if forall i :: 0 <= i < |ms| ==> Carried(ms[i]) {
      StreamParses(FRESH, ms);
      assert [] + ms == ms;
    } else {
      LinesAreBreakFree("", WriteAll(ms));
      LinesKeepClean(FRESH, Lines(WriteAll(ms)));
    }
  }

  /** What is written for a message of one line, and of two. */
  lemma WrittenText(event: string, a: string, b: string)
    requires LF !in a && LF !in b
    ensures WriteSse(Message(event, a)) == "event: " + event + "\ndata: " + a + "\n\n"
    ensures WriteSse(Message(event, a + "\n" + b)) == "event: " + event + "\ndata: " + (a + "\ndata: " + b) + "\n\n"
  {
    OneLineContinued(a);
    TwoLinesContinued(a, b);
    hide ContinueLines;
  }

  lemma OneLineContinued(a: string)
    requires LF !in a
    ensures ContinueLines(a) == a
  {
    Continued(a, "");
    assert ContinueLines("") == "";
    hide ContinueLines;
    assert a + "" == a;
  }

  lemma TwoLinesContinued(a: string, b: string)
    requires LF !in a && LF !in b
    ensures ContinueLines(a + "\n" + b) == a + "\ndata: " + b
  {
    var rest := "\n" + b;
    assert rest[0] == LF && rest[1..] == b;
    assert ContinueLines(rest) == "\ndata: " + ContinueLines(b);
    hide ContinueLines;
    OneLineContinued(b);
    Continued(a, rest);
    assert a + rest == a + "\n" + b && a + ("\ndata: " + b) == a + "\ndata: " + b;
  }

  lemma {:induction false} Continued(a: string, rest: string)
    requires LF !in a
    ensures ContinueLines(a + rest) == a + ContinueLines(rest)
  {
    if a == "" {
      assert a + rest == rest;
    } else {
      Continued(a[1..], rest);
      assert (a + rest)[1..] == a[1..] + rest && (a + rest)[0] == a[0] && a[0] in a;
      assert [a[0]] + (a[1..] + ContinueLines(rest)) == a + ContinueLines(rest);
    }
  }

  /** What the parser does with a data line. */
  lemma DataLinesMean(p: Parser, text: string)
    ensures ProcessLine(p, "data: " + text) == p.(data := p.data + text + "\n")
    ensures text == "" || text[0] != ' ' ==> ProcessLine(p, "data:" + text) == p.(data := p.data + text + "\n")
    ensures ProcessLine(p, "data") == p.(data := p.data + "\n")
  {
    DataLine(p, text);
    ColonAfter("data", text);
    NoColon("data");
    var line := "data" + ":" + text;
    assert line == "data:" + text && line[..4] == "data" && line[5..] == text;
    assert "data"[..4] == "data" && p.data + "" + [LF] == p.data + "\n";
  }

  /** What it does with other fields and with comments. */
  lemma OtherLinesMean(p: Parser, text: string)
    ensures ProcessLine(p, ":" + text) == p && ProcessLine(p, "event: " + text) == p.(eventType := text)
    ensures ProcessLine(p, "id: " + text) == p && ProcessLine(p, "retry: " + text) == p
  {
    EventLine(p, text);
    ColonAfter("id", " " + text);
    ColonAfter("retry", " " + text);
    assert "id: " + text == "id" + ":" + (" " + text) && ("id: " + text)[..2] == "id";
    assert "retry: " + text == "retry" + ":" + (" " + text) && ("retry: " + text)[..5] == "retry";
  }

  /** What it does with a blank line. */
  lemma BlankLineMeans(eventType: string, text: string, out: seq<Message>)
    ensures ProcessLine(Parser(eventType, "", out), "") == Parser("", "", out)
    ensures ProcessLine(Parser(eventType, text + "\n", out), "") ==
            Parser("", "", out + [Message(if eventType == "" then "message" else eventType, text)])
  {
    assert (text + "\n")[..|text|] == text;
  }

  lemma {:induction false} NoColon(s: string)
    requires ':' !in s
    ensures Colon(s) == |s|
  {
    if s == "" {
    } else {
      NoColon(s[1..]);
    }
  }
}
