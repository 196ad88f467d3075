/**
The event-stream reader (pg/pg_mcp/src/sse.rs).  It reads a reply line by line
and stops at the first event whose data is a JSON-RPC message with the wanted
id.  The reference is the interpretation of an event stream in section 9.2.6 of
the WHATWG HTML standard.
*/
module Sse {
  import opened Options

  /** A parsed frame, by its numeric id and its text. */
  datatype Message = Message(id: Option<int>, text: string)

  type Parser = string -> Option<Message>

  // ----- lines as the reader takes them -----

  /** The length of the first line, with its line feed if it has one. */
  function LineLength(s: string): (n: nat)
    ensures n <= |s| && (s != "" ==> n > 0)
  {
    if s == "" then 0 else if s[0] == '\n' then 1 else 1 + LineLength(s[1..])
  }

  lemma {:induction false} LineLengthIs(s: string, n: nat)
    requires n < |s| && s[n] == '\n' && forall i | 0 <= i < n :: s[i] != '\n'
    ensures LineLength(s) == n + 1
  {
    if n > 0 {
      LineLengthIs(s[1..], n - 1);
    }
  }

  lemma {:induction false} LineLengthIsAll(s: string)
    requires forall i | 0 <= i < |s| :: s[i] != '\n'
    ensures LineLength(s) == |s|
  {
    if s != "" {
      LineLengthIsAll(s[1..]);
    }
  }

  function TrimEnd(line: string): string {
    if line == "" || (line[|line| - 1] != '\n' && line[|line| - 1] != '\r') then line else TrimEnd(line[..|line| - 1])
  }

  /** The trimmed lines; the last one need not be terminated. */
  function Lines(s: string): seq<string> {
    if s == "" then [] else [TrimEnd(s[..LineLength(s)])] + Lines(s[LineLength(s)..])
  }

  // ----- fields -----

  function ColonAt(line: string): (i: nat)
    ensures i <= |line|
  {
    if line == "" || line[0] == ':' then 0 else 1 + ColonAt(line[1..])
  }

  function FieldOf(line: string): string { line[..ColonAt(line)] }

  function ValueOf(line: string): string {
    var i := ColonAt(line);
    if i == |line| then ""
    else if i + 1 < |line| && line[i + 1] == ' ' then line[i + 2..]
    else line[i + 1..]
  }

  // ----- events as the reader dispatches them -----

  function Join(data: seq<string>): string
    requires data != []
  {
    if |data| == 1 then data[0] else Join(data[..|data| - 1]) + "\n" + data[|data| - 1]
  }

  function Collected(data: seq<string>, line: string): seq<string> {
    if FieldOf(line) == "data" then data + [ValueOf(line)] else data
  }

  /** The data of the events that these lines dispatch, after `data` was collected. */
  function Events(lines: seq<string>, data: seq<string>): seq<string> {
    if lines == [] then []
    else if lines[0] != "" then Events(lines[1..], Collected(data, lines[0]))
    else if data == [] then Events(lines[1..], [])
    else [Join(data)] + Events(lines[1..], [])
  }

  /** What was observed, and the answer if it came. */
  datatype Reading = Reading(seen: seq<Message>, answer: Option<Message>)

  function Find(events: seq<string>, want: int, parse: Parser): Reading {
    if events == [] then Reading([], None)
    else
      match parse(events[0])
      case None => Find(events[1..], want, parse)
      case Some(m) =>
        if m.id == Some(want) then Reading([m], Some(m))
        else
          var rest := Find(events[1..], want, parse);
          Reading([m] + rest.seen, rest.answer)
  }

  function Read(s: string, want: int, parse: Parser): Reading {
    Find(Events(Lines(s), []), want, parse)
  }

  datatype Outcome = Answer(message: Message) | Ended | TimedOut

  /** The reader's loop over lines. */
  function Scan(lines: seq<string>, data: seq<string>, seen: seq<Message>, want: int, parse: Parser): Reading {
    if lines == [] then Reading(seen, None)
    else if lines[0] != "" then Scan(lines[1..], Collected(data, lines[0]), seen, want, parse)
    else if data == [] then Scan(lines[1..], [], seen, want, parse)
    else
      match parse(Join(data))
      case None => Scan(lines[1..], [], seen, want, parse)
      case Some(m) =>
        if m.id == Some(want) then Reading(seen + [m], Some(m)) else Scan(lines[1..], [], seen + [m], want, parse)
  }

  function Prepend(seen: seq<Message>, r: Reading): Reading { Reading(seen + r.seen, r.answer) }

  lemma FindCons(event: string, events: seq<string>, want: int, parse: Parser)
    ensures Find([event] + events, want, parse) ==
            match parse(event)
            case None => Find(events, want, parse)
            case Some(m) =>
              if m.id == Some(want) then Reading([m], Some(m))
              else Prepend([m], Find(events, want, parse))
  {
    assert ([event] + events)[1..] == events;
  }

  lemma PrependTwice(seen: seq<Message>, m: Message, r: Reading)
    ensures Prepend(seen, Prepend([m], r)) == Prepend(seen + [m], r)
  {
    assert seen + ([m] + r.seen) == seen + [m] + r.seen;
  }

  lemma {:induction false} ScanIsFind(lines: seq<string>, data: seq<string>, seen: seq<Message>, want: int,
                                      parse: Parser)
    ensures Scan(lines, data, seen, want, parse) == Prepend(seen, Find(Events(lines, data), want, parse))
  {
    if lines == [] {
    } else if lines[0] != "" {
      ScanIsFind(lines[1..], Collected(data, lines[0]), seen, want, parse);
    } else if data == [] {
      ScanIsFind(lines[1..], [], seen, want, parse);
    } else {
      var event, later := Join(data), Events(lines[1..], []);
      FindCons(event, later, want, parse);
      match parse(event) {
        case None => ScanIsFind(lines[1..], [], seen, want, parse);
        case Some(m) =>
          ScanIsFind(lines[1..], [], seen + [m], want, parse);
          PrependTwice(seen, m, Find(later, want, parse));
      }
    }
  }

  function Cut(lines: seq<string>, budget: nat): seq<string> {
    if budget < |lines| then lines[..budget] else lines
  }

  method NextLine(s: string) returns (line: string, rest: string)
    requires s != ""
    ensures Lines(s) == [line] + Lines(rest) && |rest| < |s|
  {
    var n := LineLength(s);
    line, rest := TrimEnd(s[..n]), s[n..];
  }

  /** The reader; its time is up after `budget` lines. */
  method ReadUntilId(s: string, want: int, budget: nat, parse: Parser) returns (out: Outcome, seen: seq<Message>)
    ensures var r := Find(Events(Cut(Lines(s), budget), []), want, parse);
            && seen == r.seen
            && out == if r.answer.Some? then Answer(r.answer.value)
                      else if budget <= |Lines(s)| then TimedOut
                      else Ended
  {
    ScanIsFind(Cut(Lines(s), budget), [], [], want, parse);
    ghost var whole := Scan(Cut(Lines(s), budget), [], [], want, parse);
    var rest, left, data: seq<string> := s, budget, [];
    seen := [];
    while true
      invariant budget - left == |Lines(s)| - |Lines(rest)|
      invariant Scan(Cut(Lines(rest), left), data, seen, want, parse) == whole
      decreases left
    {
      if left == 0 {
        return TimedOut, seen;
      }
      if rest == "" {
        return Ended, seen;
      }
      var line;
      ghost var whence := rest;
      line, rest := NextLine(rest);
      CutCons(line, Lines(rest), left);
      assert Cut(Lines(whence), left)[1..] == Cut(Lines(rest), left - 1);
      left := left - 1;
      if line == "" {
        if data != [] {
          var parsed := parse(Join(data));
          if parsed.Some? {
            seen := seen + [parsed.value];
            if parsed.value.id == Some(want) {
              return Answer(parsed.value), seen;
            }
          }
        }
        data := [];
      } else if line[0] != ':' && FieldOf(line) == "data" {
        data := data + [ValueOf(line)];
      }
    }
  }

  lemma CutCons(line: string, lines: seq<string>, left: nat)
    requires left > 0
    ensures Cut([line] + lines, left) == [line] + Cut(lines, left - 1)
  {
  }

  // ----- what the answer is -----

  function Parsed(events: seq<string>, parse: Parser): seq<Message> {
    if events == [] then []
    else (match parse(events[0]) case None => [] case Some(m) => [m]) + Parsed(events[1..], parse)
  }

  ghost predicate IsWanted(event: string, want: int, parse: Parser) {
    parse(event).Some? && parse(event).value.id == Some(want)
  }

  /** Event `i` is the first wanted one, and `r` is what reading up to it gives. */
  ghost predicate AnsweredAt(events: seq<string>, want: int, parse: Parser, r: Reading, i: nat) {
    && i < |events| && IsWanted(events[i], want, parse) && parse(events[i]) == r.answer
    && (forall k | 0 <= k < i :: !IsWanted(events[k], want, parse))
    && r.seen == Parsed(events[..i + 1], parse)
  }

  lemma AnsweredLater(event: string, events: seq<string>, want: int, parse: Parser, i: nat)
    requires !IsWanted(event, want, parse) && AnsweredAt(events, want, parse, Find(events, want, parse), i)
    ensures AnsweredAt([event] + events, want, parse, Find([event] + events, want, parse), i + 1)
  {
    FindCons(event, events, want, parse);
    var all := [event] + events;
    assert all[..i + 2][1..] == events[..i + 1] && all[..i + 2][0] == event;
    assert all[i + 1] == events[i];
    assert forall k | 0 < k < i + 1 :: all[k] == events[k - 1];
  }

  /** The answer is the first event that parses to a message with the wanted id, and
      the observer saw exactly the messages up to and including it; without such an
      event there is no answer and the observer saw every message. */
  lemma {:induction false} FindMeans(events: seq<string>, want: int, parse: Parser)
    ensures var r := Find(events, want, parse);
            && (r.answer.None? <==> forall i | 0 <= i < |events| :: !IsWanted(events[i], want, parse))
            && (r.answer.None? ==> r.seen == Parsed(events, parse))
            && (r.answer.Some? ==> exists i :: AnsweredAt(events, want, parse, r, i))
  {
    if events != [] {
      var rest := events[1..];
      assert events == [events[0]] + rest;
      FindMeans(rest, want, parse);
      if IsWanted(events[0], want, parse) {
        assert events[..1] == [events[0]] && events[..1][1..] == [];
        assert AnsweredAt(events, want, parse, Find(events, want, parse), 0);
      } else if Find(rest, want, parse).answer.Some? {
        var i :| AnsweredAt(rest, want, parse, Find(rest, want, parse), i);
        AnsweredLater(events[0], rest, want, parse, i);
      }
    }
  }

  // ----- the standard -----

  const BOM: char := '\U{FEFF}'

  function FirstBreak(s: string): (i: nat)
    ensures i <= |s| && (i < |s| ==> s[i] == '\n' || s[i] == '\r')
    ensures forall k | 0 <= k < i :: s[k] != '\n' && s[k] != '\r'
  {
    if s == "" || s[0] == '\n' || s[0] == '\r' then 0 else 1 + FirstBreak(s[1..])
  }

  /** Lines end in CRLF, LF or CR; an unterminated rest is no line. */
  function StandardLines(s: string): seq<string> {
    var i := FirstBreak(s);
    if i == |s| then []
    else if s[i] == '\r' && i + 1 < |s| && s[i + 1] == '\n' then [s[..i]] + StandardLines(s[i + 2..])
    else [s[..i]] + StandardLines(s[i + 1..])
  }

  /** The data buffer grows by each data value and a line feed; a blank line
      dispatches it without the last one, unless it is empty. */
  function Dispatched(lines: seq<string>, buffer: string): seq<string> {
    if lines == [] then []
    else if lines[0] != "" then
      Dispatched(lines[1..], if FieldOf(lines[0]) == "data" then buffer + ValueOf(lines[0]) + "\n" else buffer)
    else if buffer == "" then Dispatched(lines[1..], "")
    else [buffer[..|buffer| - 1]] + Dispatched(lines[1..], "")
  }

  function StandardEvents(s: string): seq<string> {
    Dispatched(StandardLines(if s != "" && s[0] == BOM then s[1..] else s), "")
  }

  /** Every line break is LF or CRLF. */
  ghost predicate CrLfOnly(s: string) {
    forall i | 0 <= i < |s| && s[i] == '\r' :: i + 1 < |s| && s[i + 1] == '\n'
  }

  function BufferOf(data: seq<string>): string {
    if data == [] then "" else BufferOf(data[..|data| - 1]) + data[|data| - 1] + "\n"
  }

  lemma {:induction false} JoinIsBuffer(data: seq<string>)
    requires data != []
    ensures BufferOf(data) == Join(data) + "\n"
  {
    if |data| > 1 {
      JoinIsBuffer(data[..|data| - 1]);
    } else {
      assert data[..0] == [];
    }
  }

  lemma {:induction false} EventsAreDispatched(lines: seq<string>, data: seq<string>)
    ensures Events(lines, data) == Dispatched(lines, BufferOf(data))
  {
    if lines == [] {
    } else if lines[0] != "" {
      var v := ValueOf(lines[0]);
      assert (data + [v])[..|data|] == data;
      EventsAreDispatched(lines[1..], Collected(data, lines[0]));
    } else {
      EventsAreDispatched(lines[1..], []);
      if data != [] {
        JoinIsBuffer(data);
      }
    }
  }

  /** No line break of any kind inside. */
  ghost predicate Unbroken(line: string) {
    forall i | 0 <= i < |line| :: line[i] != '\r' && line[i] != '\n'
  }

  lemma NothingToTrim(line: string)
    requires Unbroken(line)
    ensures TrimEnd(line) == line && TrimEnd(line + "\n") == line && TrimEnd(line + "\r\n") == line
  {
    assert (line + "\n")[..|line|] == line;
    assert (line + "\r\n")[..|line| + 1] == line + "\r" && (line + "\r")[..|line|] == line;
    assert TrimEnd(line + "\r") == line;
  }

  /** Where the first line ends, by either way of looking for its end. */
  lemma FirstBreakIs(s: string)
    requires CrLfOnly(s)
    ensures var n, i := LineLength(s), FirstBreak(s);
            if i == |s| then n == |s|
            else if s[i] == '\r' then i + 1 < |s| && s[i + 1] == '\n' && n == i + 2
            else n == i + 1
  {
    var i := FirstBreak(s);
    if i == |s| {
      LineLengthIsAll(s);
    } else if s[i] == '\r' {
      LineLengthIs(s, i + 1);
    } else {
      LineLengthIs(s, i);
    }
  }

  lemma CrLfTail(s: string, n: nat)
    requires CrLfOnly(s) && n <= |s|
    ensures CrLfOnly(s[n..])
  {
    var t := s[n..];
    forall i | 0 <= i < |t| && t[i] == '\r' ensures i + 1 < |t| && t[i + 1] == '\n' {
      assert s[n + i] == '\r';
    }
  }

  lemma FirstLineTrimmed(s: string)
    requires CrLfOnly(s)
    ensures TrimEnd(s[..LineLength(s)]) == s[..FirstBreak(s)]
  {
    var n, i := LineLength(s), FirstBreak(s);
    FirstBreakIs(s);
    NothingToTrim(s[..i]);
    if i < |s| {
      assert s[..n] == s[..i] + if s[i] == '\r' then "\r\n" else "\n";
    }
  }

  /** The first line and the rest are the same for both. */
  lemma FirstLines(s: string)
    requires CrLfOnly(s) && FirstBreak(s) < |s|
    ensures StandardLines(s) == [TrimEnd(s[..LineLength(s)])] + StandardLines(s[LineLength(s)..])
  {
    FirstBreakIs(s);
    FirstLineTrimmed(s);
  }

  /** The reader has the standard's lines, and perhaps an unterminated one that is
      not blank. */
  lemma {:induction false} LinesAreStandard(s: string)
    requires CrLfOnly(s)
    ensures Lines(s) == StandardLines(s)
            || exists x :: x != "" && Lines(s) == StandardLines(s) + [x]
    decreases |s|
  {
    if s != "" {
      var n, i := LineLength(s), FirstBreak(s);
      FirstBreakIs(s);
      if i < |s| {
        FirstLines(s);
        CrLfTail(s, n);
        LinesAreStandard(s[n..]);
        if Lines(s[n..]) != StandardLines(s[n..]) {
          var x :| x != "" && Lines(s[n..]) == StandardLines(s[n..]) + [x];
          assert Lines(s) == StandardLines(s) + [x];
        }
      } else {
        NothingToTrim(s);
        OneLine(s);
      }
    }
  }

  lemma {:induction false} LastLineDispatchesNothing(lines: seq<string>, line: string, data: seq<string>)
    requires line != ""
    ensures Events(lines + [line], data) == Events(lines, data)
  {
    if lines == [] {
      assert (lines + [line])[1..] == [];
    } else {
      assert (lines + [line])[1..] == lines[1..] + [line];
      LastLineDispatchesNothing(lines[1..], line, if lines[0] == "" then [] else Collected(data, lines[0]));
    }
  }

  lemma ReaderDispatches(s: string)
    requires CrLfOnly(s)
    ensures Events(Lines(s), []) == Dispatched(StandardLines(s), "")
  {
    LinesAreStandard(s);
    EventsAreDispatched(StandardLines(s), []);
    if Lines(s) != StandardLines(s) {
      var x :| x != "" && Lines(s) == StandardLines(s) + [x];
      LastLineDispatchesNothing(StandardLines(s), x, []);
    }
  }

  /** On every LF or CRLF stream without a byte order mark the reader dispatches
      exactly the events of the standard. */
  lemma EventsAreStandard(s: string)
    requires CrLfOnly(s) && (s == "" || s[0] != BOM)
    ensures Events(Lines(s), []) == StandardEvents(s)
  {
    ReaderDispatches(s);
  }

  // ----- a byte order mark -----

  lemma FirstBreakAfter(c: char, s: string)
    requires c != '\r' && c != '\n'
    ensures FirstBreak([c] + s) == 1 + FirstBreak(s)
  {
    assert ([c] + s)[1..] == s;
  }

  /** A mark becomes part of the first line. */
  lemma MarkedLines(s: string)
    ensures var lines := StandardLines(s);
            StandardLines([BOM] + s) == if lines == [] then [] else [[BOM] + lines[0]] + lines[1..]
  {
    var t, i := [BOM] + s, FirstBreak(s);
    FirstBreakAfter(BOM, s);
    if i < |s| {
      assert t[..i + 1] == [BOM] + s[..i];
      assert t[i + 1] == s[i] && t[i + 2..] == s[i + 1..];
      if i + 1 < |s| {
        assert t[i + 2] == s[i + 1] && t[i + 3..] == s[i + 2..];
      }
    }
  }

  lemma BomStartsField(line: string)
    ensures FieldOf([BOM] + line) != "data"
  {
    var f := FieldOf([BOM] + line);
    assert f != "" && f[0] == BOM;
    assert "data"[0] == 'd';
  }

  /** A longer data buffer shows exactly when a blank line dispatches it. */
  lemma {:induction false} LongerBufferShowsIff(lines: seq<string>, more: string, buffer: string)
    requires more != ""
    ensures Dispatched(lines, more + buffer) == Dispatched(lines, buffer) <==> "" !in lines
  {
    if lines == [] {
    } else {
      var rest := lines[1..];
      assert lines == [lines[0]] + rest;
      if lines[0] != "" {
        assert more + buffer + ValueOf(lines[0]) + "\n" == more + (buffer + ValueOf(lines[0]) + "\n");
        var next := if FieldOf(lines[0]) == "data" then buffer + ValueOf(lines[0]) + "\n" else buffer;
        LongerBufferShowsIff(rest, more, next);
      } else {
        DispatchDiffers(Dispatched(rest, ""), more, buffer);
      }
    }
  }

  lemma DispatchDiffers(later: seq<string>, more: string, buffer: string)
    requires more != ""
    ensures var all := more + buffer;
            [all[..|all| - 1]] + later != if buffer == "" then later else [buffer[..|buffer| - 1]] + later
  {
    var all := more + buffer;
    var a := [all[..|all| - 1]] + later;
    if buffer == "" {
      assert |a| == |later| + 1;
    } else {
      var b := [buffer[..|buffer| - 1]] + later;
      assert |a[0]| != |b[0]|;
    }
  }

  /** The first line after the mark is a data line, and a blank line follows it. */
  ghost predicate HidesData(s: string) {
    var lines := StandardLines(s);
    lines != [] && FieldOf(lines[0]) == "data" && "" in lines[1..]
  }

  /** After a byte order mark the reader dispatches exactly the events of the standard
      if and only if the mark does not hide a data line that a blank line dispatches. */
  lemma MarkedEventsAreStandardIff(s: string)
    requires CrLfOnly(s)
    ensures Events(Lines([BOM] + s), []) == StandardEvents([BOM] + s) <==> !HidesData(s)
  {
    var t, lines := [BOM] + s, StandardLines(s);
    assert CrLfOnly(t) by {
      assert forall i | 0 < i < |t| :: t[i] == s[i - 1];
    }
    ReaderDispatches(t);
    MarkedLines(s);
    assert t[1..] == s;
    if lines != [] {
      MarkedFirstLine(lines);
    }
  }

  lemma MarkedFirstLine(lines: seq<string>)
    requires lines != []
    ensures Dispatched([[BOM] + lines[0]] + lines[1..], "") == Dispatched(lines, "")
            <==> !(FieldOf(lines[0]) == "data" && "" in lines[1..])
  {
    var marked, rest := [[BOM] + lines[0]] + lines[1..], lines[1..];
    BomStartsField(lines[0]);
    assert marked[1..] == rest && marked[0] != "";
    if FieldOf(lines[0]) == "data" {
      assert lines[0] != "";
      LongerBufferShowsIff(rest, ValueOf(lines[0]) + "\n", "");
      assert "" + ValueOf(lines[0]) + "\n" == ValueOf(lines[0]) + "\n" + "";
    }
  }

  lemma FirstBreakAt(line: string, rest: string)
    requires Unbroken(line) && rest != "" && (rest[0] == '\r' || rest[0] == '\n')
    ensures FirstBreak(line + rest) == |line|
  {
    assert (line + rest)[|line|] == rest[0];
    assert forall i | 0 <= i < |line| :: (line + rest)[i] == line[i];
  }

  /** The reader refines the standard: it answers with the standard's first event that
      has the wanted id, having observed the messages up to it. */
  lemma ReaderRefinesStandard(s: string, want: int, parse: Parser)
    requires CrLfOnly(s) && (s == "" || s[0] != BOM)
    ensures var r := Read(s, want, parse);
            && r == Find(StandardEvents(s), want, parse)
            && (r.answer.None? ==> r.seen == Parsed(StandardEvents(s), parse))
            && (r.answer.Some? ==> exists i :: AnsweredAt(StandardEvents(s), want, parse, r, i))
  {
    EventsAreStandard(s);
    FindMeans(StandardEvents(s), want, parse);
  }

  lemma LoneCrLines(line: string)
    requires Unbroken(line)
    ensures StandardLines(line + ['\r', '\r']) == [line, ""]
  {
    var s := line + ['\r', '\r'];
    FirstBreakAt(line, ['\r', '\r']);
    var t := s[|line| + 1..];
    assert s[..|line|] == line && t == ['\r'];
    assert FirstBreak(t) == 0 && t[..0] == "" && t[1..] == "";
    assert StandardLines(t) == [""] + StandardLines("");
  }

  lemma TwoStandardLines(line: string)
    requires Unbroken(line)
    ensures StandardLines(line + ['\n', '\n']) == [line, ""] && CrLfOnly(line + ['\n', '\n'])
  {
    var s := line + ['\n', '\n'];
    FirstBreakAt(line, ['\n', '\n']);
    var t := s[|line| + 1..];
    assert s[..|line|] == line && t == ['\n'];
    assert FirstBreak(t) == 0 && t[..0] == "" && t[1..] == "";
    assert StandardLines(t) == [""] + StandardLines("");
  }

  /** A byte order mark hides every data line after it: the failing inputs. */
  lemma BomIsMissed(line: string)
    requires Unbroken(line) && FieldOf(line) == "data"
    ensures var s := line + ['\n', '\n'];
            HidesData(s) && Events(Lines([BOM] + s), []) != StandardEvents([BOM] + s)
  {
    TwoStandardLines(line);
    assert [line, ""][1..] == [""];
    MarkedEventsAreStandardIff(line + ['\n', '\n']);
  }

  lemma LoneCrReader(line: string)
    requires Unbroken(line)
    ensures Lines(line + ['\r', '\r']) == [line]
  {
    var s, t := line + ['\r', '\r'], line + ['\r'];
    OneLine(s);
    NothingToTrim(line);
    assert s[..|s| - 1] == t && t[..|t| - 1] == line;
    assert TrimEnd(t) == TrimEnd(line);
  }

  lemma OneField(line: string)
    requires line != ""
    ensures Events([line, ""], []) == if FieldOf(line) == "data" then [ValueOf(line)] else []
  {
    var v := ValueOf(line);
    assert [line, ""][1..] == [""] && [""][1..] == [];
    assert Events([""], []) == [];
    assert Events([""], [v]) == [Join([v])] + Events([], []);
    assert [] + [v] == [v];
  }

  /** A lone CR ends a line for the standard and not for the reader: a data line
      followed by two of them is an event the reader does not see. */
  lemma LoneCrIsMissed(line: string)
    requires Unbroken(line) && FieldOf(line) == "data"
    ensures StandardEvents(line + ['\r', '\r']) == [ValueOf(line)]
    ensures Events(Lines(line + ['\r', '\r']), []) == []
  {
    assert line[0] == FieldOf(line)[0];
    LoneCrLines(line);
    LoneCrReader(line);
    EventsAreDispatched([line, ""], []);
    OneField(line);
    LastLineDispatchesNothing([], line, []);
    assert [] + [line] == [line];
  }

  // ----- extending the stream -----

  /** The part of the stream up to its last line feed, and what follows it. */
  function Terminated(s: string): (t: string)
    ensures t <= s
  {
    if s == "" then "" else if s[|s| - 1] == '\n' then s else Terminated(s[..|s| - 1])
  }

  /** The first line of `s + t` is that of `s`, if `s` ends one. */
  lemma SplitFirst(s: string, t: string, n: nat)
    requires n <= |s|
    ensures (s + t)[..n] == s[..n] && (s + t)[n..] == s[n..] + t
  {
  }

  lemma FirstThenRest(s: string, t: string)
    requires s != "" && s[|s| - 1] == '\n'
    ensures Lines(s + t) == [TrimEnd(s[..LineLength(s)])] + Lines(s[LineLength(s)..] + t)
  {
    LineLengthAppend(s, t);
    SplitFirst(s, t, LineLength(s));
  }

  lemma ConsAppend(line: string, a: seq<string>, b: seq<string>)
    ensures [line] + (a + b) == ([line] + a) + b
  {
  }

  lemma {:induction false} LinesAppend(s: string, t: string)
    requires s == "" || s[|s| - 1] == '\n'
    ensures Lines(s + t) == Lines(s) + Lines(t)
    decreases |s|
  {
    if s == "" {
      assert s + t == t;
    } else {
      var rest := s[LineLength(s)..];
      FirstThenRest(s, t);
      assert rest == "" || rest[|rest| - 1] == '\n';
      LinesAppend(rest, t);
      ConsAppend(TrimEnd(s[..LineLength(s)]), Lines(rest), Lines(t));
    }
  }

  lemma {:induction false} LineLengthAppend(s: string, t: string)
    requires s != "" && s[|s| - 1] == '\n'
    ensures LineLength(s + t) == LineLength(s)
  {
    if s[0] != '\n' {
      assert (s + t)[1..] == s[1..] + t;
      LineLengthAppend(s[1..], t);
    }
  }

  lemma {:induction false} TerminatedIs(s: string)
    ensures Terminated(s) == "" || Terminated(s)[|Terminated(s)| - 1] == '\n'
    ensures forall i | |Terminated(s)| <= i < |s| :: s[i] != '\n'
  {
    if s != "" && s[|s| - 1] != '\n' {
      TerminatedIs(s[..|s| - 1]);
    }
  }

  lemma OneLine(s: string)
    requires s != "" && forall i | 0 <= i < |s| :: s[i] != '\n'
    ensures Lines(s) == [TrimEnd(s)]
  {
    LineLengthIsAll(s);
    assert s[..|s|] == s && s[|s|..] == "";
  }

  lemma {:induction false} EventsGrow(lines: seq<string>, more: seq<string>, data: seq<string>)
    ensures Events(lines, data) <= Events(lines + more, data)
  {
    if lines != [] {
      assert (lines + more)[1..] == lines[1..] + more;
      EventsGrow(lines[1..], more, if lines[0] == "" then [] else Collected(data, lines[0]));
    }
  }

  lemma {:induction false} FindStops(events: seq<string>, more: seq<string>, want: int, parse: Parser)
    requires events <= more && Find(events, want, parse).answer.Some?
    ensures Find(more, want, parse) == Find(events, want, parse)
  {
    assert more[0] == events[0] && events[1..] <= more[1..];
    if !IsWanted(events[0], want, parse) {
      FindStops(events[1..], more[1..], want, parse);
    }
  }

  lemma TerminatedSplit(s: string, t: string)
    ensures s + t == Terminated(s) + (s[|Terminated(s)|..] + t)
  {
    var u := Terminated(s);
    assert s == u + s[|u|..];
  }

  lemma AnsweredEarlyIsStable(s: string, t: string, want: int, parse: Parser)
    requires Read(Terminated(s), want, parse).answer.Some?
    ensures Read(s + t, want, parse) == Read(Terminated(s), want, parse)
  {
    var u := Terminated(s);
    var v := s[|u|..] + t;
    TerminatedIs(s);
    TerminatedSplit(s, t);
    LinesAppend(u, v);
    EventsGrow(Lines(u), Lines(v), []);
    FindStops(Events(Lines(u), []), Events(Lines(u) + Lines(v), []), want, parse);
  }

  /** An unterminated line that does not end in CR dispatches nothing. */
  lemma LastPieceIsSilent(u: string, v: string)
    requires u == "" || u[|u| - 1] == '\n'
    requires v != "" && v[|v| - 1] != '\r' && forall i | 0 <= i < |v| :: v[i] != '\n'
    ensures Events(Lines(u + v), []) == Events(Lines(u), [])
  {
    LinesAppend(u, v);
    OneLine(v);
    assert TrimEnd(v) == v;
    LastLineDispatchesNothing(Lines(u), v, []);
  }

  lemma UnterminatedChanges(s: string, want: int, parse: Parser)
    requires Read(Terminated(s), want, parse).answer.None?
    ensures Read(s + "x", want, parse).answer.None?
  {
    var u := Terminated(s);
    var v := s[|u|..] + "x";
    TerminatedIs(s);
    TerminatedSplit(s, "x");
    LastPieceIsSilent(u, v);
  }

  /** An answer is final, whatever the stream goes on with, if and only if it was
      reached within the terminated lines. */
  lemma AnswerIsFinalIff(s: string, want: int, parse: Parser)
    requires Read(s, want, parse).answer.Some?
    ensures (forall t :: Read(s + t, want, parse) == Read(s, want, parse))
            <==> Read(Terminated(s), want, parse).answer.Some?
  {
    assert s + "" == s;
    if Read(Terminated(s), want, parse).answer.Some? {
      AnsweredEarlyIsStable(s, "", want, parse);
      forall t ensures Read(s + t, want, parse) == Read(s, want, parse) {
        AnsweredEarlyIsStable(s, t, want, parse);
      }
    } else {
      UnterminatedChanges(s, want, parse);
      assert Read(s + "x", want, parse) != Read(s, want, parse);
    }
  }

  lemma TerminatedParts(s: string)
    ensures var u := Terminated(s);
            var rest := s[|u|..];
            && s == u + rest && (u == "" || u[|u| - 1] == '\n')
            && (forall i | 0 <= i < |rest| :: rest[i] != '\n')
            && (rest != "" ==> rest[|rest| - 1] == s[|s| - 1])
  {
    TerminatedIs(s);
  }

  lemma TerminatedSuffices(u: string, rest: string)
    requires u == "" || u[|u| - 1] == '\n'
    requires rest != "" ==> rest[|rest| - 1] != '\r'
    requires forall i | 0 <= i < |rest| :: rest[i] != '\n'
    ensures Events(Lines(u + rest), []) == Events(Lines(u), [])
  {
    if rest == "" {
      assert u + rest == u;
    } else {
      LastPieceIsSilent(u, rest);
    }
  }

  /** So every answer on a stream that does not end in CR is final. */
  lemma AnswerIsFinal(s: string, t: string, want: int, parse: Parser)
    requires Read(s, want, parse).answer.Some?
    requires s != "" && s[|s| - 1] != '\r'
    ensures Read(s + t, want, parse) == Read(s, want, parse)
  {
    TerminatedParts(s);
    TerminatedSuffices(Terminated(s), s[|Terminated(s)|..]);
    AnsweredEarlyIsStable(s, t, want, parse);
  }
}
