/** The runner's stdout: chunks of text become events, one a line. */
module Framing {
  import opened Collections
  import opened Domain

  /** A structured event as the JSON after the marker describes it. */
  datatype Frame = Frame(eventType: string, timestamp: string, data: string)

  datatype Event = Structured(frame: Frame) | Stdout(text: string)

  /** The JSON parser and the characters that `trim` removes. */
  datatype Config = Config(parse: string -> Option<Frame>, isSpace: char -> bool)

  const MARKER: string := "@@E2E@@"

  predicate Blank(cfg: Config, line: string) {
    forall i :: 0 <= i < |line| ==> cfg.isSpace(line[i])
  }

  // ---- the reference: split the whole text first ----

  /** The position of the first newline. */
  function IndexOfNewline(text: string): (i: nat)
    requires '\n' in text
    ensures i < |text| && text[i] == '\n' && '\n' !in text[..i]
  {
    if text[0] == '\n' then 0
    else
      assert text == [text[0]] + text[1..];
      var j := IndexOfNewline(text[1..]);
      assert text[..j + 1] == [text[0]] + text[1..][..j];
      j + 1
  }

  /** The terminated lines of a text, without their newlines. */
  function Lines(text: string): seq<string>
    decreases |text|
  {
    if '\n' !in text then []
    else var i := IndexOfNewline(text); [text[..i]] + Lines(text[i + 1..])
  }

  /** What follows the last newline. */
  function Tail(text: string): string
    decreases |text|
  {
    if '\n' !in text then text else Tail(text[IndexOfNewline(text) + 1..])
  }

  function LineEvents(cfg: Config, line: string): seq<Event> {
    if MARKER <= line then
      match cfg.parse(line[|MARKER|..])
      case Some(frame) => [Structured(frame)]
      case None => [Stdout(line)]
    else if !Blank(cfg, line) then [Stdout(line)]
    else []
  }

  /** A nonblank line is one event, its frame if it is marked and parses and its text otherwise; a blank line is
      none unless it is marked. */
  lemma LinesBecomeEvents(cfg: Config, line: string)
    ensures var marked := "@@E2E@@" <= line;
            && (marked && cfg.parse(line[7..]).Some? ==> LineEvents(cfg, line) == [Structured(cfg.parse(line[7..]).value)])
            && (marked && cfg.parse(line[7..]).None? ==> LineEvents(cfg, line) == [Stdout(line)])
            && (!marked && (exists c :: c in line && !cfg.isSpace(c)) ==> LineEvents(cfg, line) == [Stdout(line)])
            && (!marked && (forall c :: c in line ==> cfg.isSpace(c)) ==> LineEvents(cfg, line) == [])
  {
  }

  /** What is left behind the last newline is plain output if it is not blank, marked or not. */
  lemma TailsArePlain(cfg: Config, tail: string)
    ensures TailEvents(cfg, tail) == if exists c :: c in tail && !cfg.isSpace(c) then [Stdout(tail)] else []
  {
  }

  function AllEvents(cfg: Config, lines: seq<string>): seq<Event> {
    if lines == [] then [] else LineEvents(cfg, lines[0]) + AllEvents(cfg, lines[1..])
  }

  /** An unterminated tail is plain output even if it starts with the marker. */
  function TailEvents(cfg: Config, tail: string): seq<Event> {
    if Blank(cfg, tail) then [] else [Stdout(tail)]
  }

  function Reference(cfg: Config, text: string): seq<Event> {
    AllEvents(cfg, Lines(text)) + TailEvents(cfg, Tail(text))
  }

  function Concat(chunks: seq<string>): string {
    if chunks == [] then "" else chunks[0] + Concat(chunks[1..])
  }

  // ---- facts about the split ----

  function Unlines(lines: seq<string>): string {
    if lines == [] then "" else lines[0] + "\n" + Unlines(lines[1..])
  }

  lemma TailBehindFirst(text: string)
    requires '\n' in text
    ensures Tail(text) == Tail(text[IndexOfNewline(text) + 1..])
  {
    hide Lines, IndexOfNewline;
  }

  lemma FirstOfLines(text: string)
    requires '\n' in text
    ensures var i := IndexOfNewline(text);
            Lines(text) == [text[..i]] + Lines(text[i + 1..]) && Tail(text) == Tail(text[i + 1..])
  {
    hide Tail, IndexOfNewline;
    TailBehindFirst(text);
  }

  lemma FirstUnlined(text: string)
    requires '\n' in text
    ensures var i := IndexOfNewline(text);
            && Unlines(Lines(text)) == text[..i] + "\n" + Unlines(Lines(text[i + 1..]))
            && Tail(text) == Tail(text[i + 1..])
  {
    hide *;
    var i := IndexOfNewline(text);
    FirstOfLines(text);
    UnlinesOfFirst(text[..i], Lines(text[i + 1..]));
  }

  lemma UnlinesOfFirst(line: string, lines: seq<string>)
    ensures Unlines([line] + lines) == line + "\n" + Unlines(lines)
  {
    assert ([line] + lines)[1..] == lines;
  }

  lemma Glue(text: string, i: nat, lines: string, tail: string)
    requires i < |text| && text[i] == '\n' && lines + tail == text[i + 1..]
    ensures (text[..i] + "\n" + lines) + tail == text
  {
    assert text == text[..i] + [text[i]] + text[i + 1..];
  }

  /** Splitting loses nothing: lines and tail give the text back. */
  lemma {:induction false} SplitIsExact(text: string)
    ensures Unlines(Lines(text)) + Tail(text) == text
    decreases |text|
  {
    hide *;
    if '\n' in text {
      var i := IndexOfNewline(text);
      var rest := text[i + 1..];
      SplitIsExact(rest);
      FirstUnlined(text);
      Glue(text, i, Unlines(Lines(rest)), Tail(rest));
    } else {
      OnlyTail(text);
    }
  }

  lemma OnlyTail(text: string)
    requires '\n' !in text
    ensures Unlines(Lines(text)) + Tail(text) == text
  {
  }

  /** Neither a line nor the tail contains a newline. */
  lemma {:induction false} SplitIsComplete(text: string)
    ensures '\n' !in Tail(text) && forall i :: 0 <= i < |Lines(text)| ==> '\n' !in Lines(text)[i]
    decreases |text|
  {
    if '\n' in text {
      SplitIsComplete(text[IndexOfNewline(text) + 1..]);
    }
  }

  lemma {:induction false} IndexInPrefix(a: string, b: string)
    requires '\n' in a
    ensures '\n' in a + b && IndexOfNewline(a + b) == IndexOfNewline(a)
  {
    if a[0] != '\n' {
      assert a == [a[0]] + a[1..];
      IndexInPrefix(a[1..], b);
      assert (a + b)[1..] == a[1..] + b;
    }
    assert (a + b)[IndexOfNewline(a)] == '\n';
  }

  /** Splitting a text in two parts: only the tail of the first meets the second. */
  lemma {:induction false} SplitAppend(a: string, b: string)
    ensures Lines(a + b) == Lines(a) + Lines(Tail(a) + b)
    ensures Tail(a + b) == Tail(Tail(a) + b)
    decreases |a|
  {
    if '\n' in a {
      hide *;
      var i := IndexOfNewline(a);
      var rest := a[i + 1..];
      IndexInPrefix(a, b);
      assert (a + b)[i + 1..] == rest + b && (a + b)[..i] == a[..i];
      FirstOfLines(a);
      FirstOfLines(a + b);
      SplitAppend(rest, b);
      Associative([a[..i]], Lines(rest), Lines(Tail(a) + b));
    } else {
      assert Lines(a) == [] && Tail(a) == a;
    }
  }

  lemma EventsOfFirst(cfg: Config, line: string, lines: seq<string>)
    ensures AllEvents(cfg, [line] + lines) == LineEvents(cfg, line) + AllEvents(cfg, lines)
  {
    hide LineEvents;
    assert ([line] + lines)[1..] == lines;
  }

  lemma {:induction false} EventsAppend(cfg: Config, first: seq<string>, second: seq<string>)
    ensures AllEvents(cfg, first + second) == AllEvents(cfg, first) + AllEvents(cfg, second)
  {
    if first == [] {
      assert first + second == second;
    } else {
      hide *;
      var line, rest := first[0], first[1..];
      EventsAppend(cfg, rest, second);
      FirstApart(first, second);
      EventsOfFirst(cfg, line, rest);
      EventsOfFirst(cfg, line, rest + second);
      Associative(LineEvents(cfg, line), AllEvents(cfg, rest), AllEvents(cfg, second));
    }
  }

  lemma FirstLine(cfg: Config, events: seq<Event>, text: string)
    requires '\n' in text
    ensures var i := IndexOfNewline(text);
            && Tail(text) == Tail(text[i + 1..])
            && events + AllEvents(cfg, Lines(text)) == events + LineEvents(cfg, text[..i]) + AllEvents(cfg, Lines(text[i + 1..]))
  {
    hide *;
    var i := IndexOfNewline(text);
    FirstOfLines(text);
    EventsOfFirst(cfg, text[..i], Lines(text[i + 1..]));
  }

  // ---- the handler ----

  class StdoutReader {
    const cfg: Config
    var pending: string
    var events: seq<Event>
    ghost var received: string

    ghost predicate Valid()
      reads this
    {
      pending == Tail(received) && events == AllEvents(cfg, Lines(received))
    }

    constructor (cfg: Config)
      ensures Valid() && received == "" && this.cfg == cfg
    {
      this.cfg := cfg;
      pending, events, received := "", [], "";
    }

    method OnLine(line: string)
      modifies this`events
      ensures events == old(events) + LineEvents(cfg, line)
    {
      if MARKER <= line {
        match cfg.parse(line[|MARKER|..]) {
          case Some(frame) => events := events + [Structured(frame)];
          case None => events := events + [Stdout(line)];
        }
      } else if !Blank(cfg, line) {
        events := events + [Stdout(line)];
      }
    }

    /** The inner loop: every line that is complete by now. */
    method Drain()
      modifies this`pending, this`events
      ensures pending == Tail(old(pending)) && events == old(events) + AllEvents(cfg, Lines(old(pending)))
    {
      ghost var goal, tail := events + AllEvents(cfg, Lines(pending)), Tail(pending);
      while '\n' in pending
        invariant Tail(pending) == tail && events + AllEvents(cfg, Lines(pending)) == goal
        decreases |pending|
      {
        var end := IndexOfNewline(pending);
        FirstLine(cfg, events, pending);
        OnLine(pending[..end]);
        pending := pending[end + 1..];
      }
    }

    method OnData(chunk: string)
      requires Valid()
      modifies this
      ensures Valid() && received == old(received) + chunk
    {
      SplitAppend(received, chunk);
      EventsAppend(cfg, Lines(received), Lines(pending + chunk));
      pending := pending + chunk;
      Drain();
      received := received + chunk;
    }

    method OnClose()
      requires Valid()
      modifies this
      ensures events == Reference(cfg, received) && received == old(received)
    {
      if !Blank(cfg, pending) {
        events := events + [Stdout(pending)];
      }
    }
  }

  /** Whatever the chunks, the events are those of the whole text: two ways to cut the same output cannot
      be told apart. */
  method ReadAll(cfg: Config, chunks: seq<string>) returns (events: seq<Event>)
    ensures events == Reference(cfg, Concat(chunks))
  {
    var reader := new StdoutReader(cfg);
    for n := 0 to |chunks|
      invariant reader.Valid() && reader.received == Concat(chunks[..n]) && reader.cfg == cfg && fresh(reader)
    {
      reader.OnData(chunks[n]);
      ConcatLast(chunks, n);
    }
    assert chunks[..|chunks|] == chunks;
    reader.OnClose();
    events := reader.events;
  }

  lemma {:induction false} ConcatLast(chunks: seq<string>, n: nat)
    requires n < |chunks|
    ensures Concat(chunks[..n + 1]) == Concat(chunks[..n]) + chunks[n]
  {
    if n > 0 {
      assert chunks[..n + 1][1..] == chunks[1..][..n] && chunks[..n][1..] == chunks[1..][..n - 1];
      ConcatLast(chunks[1..], n - 1);
    }
  }
}
