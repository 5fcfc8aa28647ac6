/** The event stream between the server (event_source in server.py) and the browser (streamChat
    in webui/index.html). A frame is a data line and a blank line, a subset of section 9.2 of the
    WHATWG HTML Living Standard; the client reads it line by line from chunks cut anywhere. */
module EventStream {
  import opened Wrappers
  import opened Executor

  /** What JSON.parse makes of a payload: nothing, null, or a value read as an event. */
  datatype Parsed = Malformed | Null | Value(event: Event)

  datatype Json = Json(dumps: Event -> string, parse: string -> Parsed)

  /** An object on one line. No raw newline occurs inside: section 7 of RFC 8259 has control
      characters in strings escaped, and no indentation is asked for. */
  predicate IsPayload(s: string) {
    |s| >= 2 && s[0] == '{' && s[|s| - 1] == '}' && '\n' !in s
  }

  ghost predicate Faithful(json: Json) {
    forall e :: json.parse(json.dumps(e)) == Value(e) && IsPayload(json.dumps(e))
  }

  // ---------------------------------------------------------------- the server

  const DONE := "data: [DONE]"

  function DataLine(payload: string): string {
    "data: " + payload
  }

  function Frame(line: string): string {
    line + "\n\n"
  }

  function Frames(json: Json, events: seq<Event>): seq<string> {
    if events == [] then []
    else Frames(json, events[..|events| - 1]) + [Frame(DataLine(json.dumps(events[|events| - 1])))]
  }

  /** An event an agent yields; `fault` is the exception its encoding raises, if any. */
  datatype Yield = Yield(event: Event, fault: Option<string>)

  /** The events that are sent: those before the first exception, and an error event for it. */
  function Sent(source: seq<Yield>, failure: Option<string>): seq<Event> {
    if source == [] then (if failure.Some? then [Error(failure.value)] else [])
    else if source[0].fault.Some? then [Error(source[0].fault.value)]
    else [source[0].event] + Sent(source[1..], failure)
  }

  function Heard(answer: string, e: Event): string {
    if e.Done? && e.answer.Text? then e.answer.text else answer
  }

  /** The last textual answer collected before the first exception. */
  function Collected(answer: string, source: seq<Yield>): string
    decreases |source|
  {
    if source == [] then answer
    else if source[0].fault.Some? then Heard(answer, source[0].event)
    else Collected(Heard(answer, source[0].event), source[1..])
  }

  /** A yield the server looks at: none before it raises. */
  predicate Reached(source: seq<Yield>, i: nat) {
    i < |source| && forall j :: 0 <= j < i ==> source[j].fault.None?
  }

  predicate IsTextAnswer(e: Event) {
    e.Done? && e.answer.Text?
  }

  /** The answer of a stream, by position: the text of the last reached yield that carries one, or
      nothing if none does. */
  ghost predicate IsAnswerOf(source: seq<Yield>, text: string) {
    || (exists i :: 0 <= i && Reached(source, i) && source[i].event == Done(Text(text)) &&
                    forall j :: i < j && Reached(source, j) ==> !IsTextAnswer(source[j].event))
    || (text == "" && forall i :: 0 <= i && Reached(source, i) ==> !IsTextAnswer(source[i].event))
  }

  /** Nothing is collected after the last answer. */
  lemma {:induction false} CollectedStays(answer: string, source: seq<Yield>)
    requires forall i :: 0 <= i && Reached(source, i) ==> !IsTextAnswer(source[i].event)
    ensures Collected(answer, source) == answer
    decreases |source|
  {
    if source != [] {
      assert Reached(source, 0);
      if source[0].fault.None? {
        forall i | 0 <= i && Reached(source[1..], i) ensures !IsTextAnswer(source[1..][i].event) {
          assert Reached(source, i + 1);
        }
        CollectedStays(answer, source[1..]);
      }
    }
  }

  lemma {:induction false} CollectedIsLast(answer: string, source: seq<Yield>, i: nat, text: string)
    requires Reached(source, i) && source[i].event == Done(Text(text))
    requires forall j :: i < j && Reached(source, j) ==> !IsTextAnswer(source[j].event)
    ensures Collected(answer, source) == text
    decreases |source|
  {
    var heard := Heard(answer, source[0].event);
    if i > 0 {
      assert source[0].fault.None?;
      assert forall j :: 0 <= j < i - 1 ==> source[1..][j] == source[j + 1];
      forall j | i - 1 < j && Reached(source[1..], j) ensures !IsTextAnswer(source[1..][j].event) {
        assert Reached(source, j + 1);
      }
      CollectedIsLast(heard, source[1..], i - 1, text);
    } else if source[0].fault.None? {
      forall j | 0 <= j && Reached(source[1..], j) ensures !IsTextAnswer(source[1..][j].event) {
        assert Reached(source, j + 1);
      }
      CollectedStays(heard, source[1..]);
    }
  }

  /** There is one answer, and it is what is collected. */
  lemma CollectedIffAnswer(source: seq<Yield>, text: string)
    ensures Collected("", source) == text <==> IsAnswerOf(source, text)
  {
    if IsAnswerOf(source, text) {
      if i :| 0 <= i && Reached(source, i) && source[i].event == Done(Text(text)) &&
              forall j :: i < j && Reached(source, j) ==> !IsTextAnswer(source[j].event)
      {
        CollectedIsLast("", source, i, text);
      } else {
        CollectedStays("", source);
      }
    }
    AnswerExists(source, |source|);
  }

  /** Looking back from `n` for the last answer. */
  lemma {:induction false} AnswerExists(source: seq<Yield>, n: nat)
    requires n <= |source| && forall j :: n <= j && Reached(source, j) ==> !IsTextAnswer(source[j].event)
    ensures IsAnswerOf(source, Collected("", source))
    decreases n
  {
    if n == 0 {
      CollectedStays("", source);
    } else if Reached(source, n - 1) && IsTextAnswer(source[n - 1].event) {
      CollectedIsLast("", source, n - 1, source[n - 1].event.answer.text);
      assert source[n - 1].event == Done(Text(Collected("", source)));
    } else {
      AnswerExists(source, n - 1);
    }
  }

  /** What is sent, by position: every event before the first yield that raises, as it is, and then
      the exception as an error; or all events, and the exception of the agent, if there is one. */
  lemma {:induction false} SentByPosition(source: seq<Yield>, failure: Option<string>, n: nat)
    requires n <= |source| && (forall j :: 0 <= j < n ==> source[j].fault.None?)
    requires n < |source| ==> source[n].fault.Some?
    ensures var sent := Sent(source, failure);
            var error := if n < |source| then source[n].fault else failure;
            && |sent| == n + (if error.Some? then 1 else 0)
            && (forall j :: 0 <= j < n ==> sent[j] == source[j].event)
            && (error.Some? ==> sent[n] == Error(error.value))
    decreases |source|
  {
    if n > 0 {
      assert source[0].fault.None?;
      assert forall j :: 0 <= j < n - 1 ==> source[1..][j] == source[j + 1];
      SentByPosition(source[1..], failure, n - 1);
      var sent := Sent(source, failure);
      assert forall j :: 0 < j < |sent| ==> sent[j] == Sent(source[1..], failure)[j - 1];
    }
  }

  function AllFrames(json: Json, source: seq<Yield>, failure: Option<string>): seq<string> {
    Frames(json, Sent(source, failure)) + [Frame(DONE)]
  }

  function Prefix<T>(n: nat, xs: seq<T>): (r: seq<T>)
    ensures r <= xs && |r| == if |xs| < n then |xs| else n
  {
    if |xs| < n then xs else xs[..n]
  }

  /** A generator whose consumer takes `taken` frames and then closes it. `persisted` is the
      answer the turn is persisted with: a client that leaves before the terminator persists
      nothing. */
  method EventSource(json: Json, source: seq<Yield>, failure: Option<string>, taken: nat)
    returns (frames: seq<string>, persisted: Option<string>)
    ensures frames == Prefix(taken, AllFrames(json, source, failure))
    ensures persisted ==
            if taken >= |AllFrames(json, source, failure)| then Some(Collected("", source)) else None
    ensures persisted.Some? ==> IsAnswerOf(source, persisted.value)
  {
    hide Frames, Frame, DataLine, AllFrames, Prefix, Sent, Collected, IsAnswerOf;
    CollectedIffAnswer(source, Collected("", source));
    frames := [];
    NoFrames(json, source, failure);
    if taken == 0 { return frames, None; }
    ghost var sent: seq<Event> := [];
    var collected, raised, i := "", failure, 0;
    while i < |source|
      invariant 0 <= i <= |source| && |sent| == i < taken
      invariant frames == Frames(json, sent)
      invariant Sent(source, failure) == sent + Sent(source[i..], failure)
      invariant Collected("", source) == Collected(collected, source[i..])
      invariant raised == failure
    {
      var ev := source[i].event;
      NextYield(source, failure, i, sent, collected);
      if ev.Done? && ev.answer.Text? { collected := ev.answer.text; }
      if source[i].fault.Some? {
        raised := source[i].fault;
        break;
      }
      frames := frames + [Frame(DataLine(json.dumps(ev)))];
      OneMoreFrame(json, sent, ev);
      sent := sent + [ev];
      if |frames| == taken {
        SomeFrames(json, source, failure, sent, Sent(source[i + 1..], failure));
        return frames, None;
      }
      i := i + 1;
    }
    if i == |source| { NoYield(source, failure, i, sent, collected); }
    assert Sent(source, failure) == sent + if raised.Some? then [Error(raised.value)] else [];
    if raised.Some? {
      frames := frames + [Frame(DataLine(json.dumps(Error(raised.value))))];
      OneMoreFrame(json, sent, Error(raised.value));
      sent := sent + [Error(raised.value)];
      SomeFrames(json, source, failure, sent, []);
      if |frames| == taken { return frames, None; }
    }
    SomeFrames(json, source, failure, sent, []);
    frames := frames + [Frame(DONE)];
    persisted := Some(collected);
  }

  lemma NextYield(source: seq<Yield>, failure: Option<string>, i: nat, sent: seq<Event>, answer: string)
    requires i < |source| && Sent(source, failure) == sent + Sent(source[i..], failure)
    ensures var y := source[i];
            if y.fault.Some? then
              Sent(source, failure) == sent + [Error(y.fault.value)] &&
              Collected(answer, source[i..]) == Heard(answer, y.event)
            else
              Sent(source, failure) == (sent + [y.event]) + Sent(source[i + 1..], failure) &&
              Collected(answer, source[i..]) == Collected(Heard(answer, y.event), source[i + 1..])
  {
    assert source[i..][1..] == source[i + 1..];
    var y := source[i];
    assert sent + ([y.event] + Sent(source[i + 1..], failure)) == (sent + [y.event]) + Sent(source[i + 1..], failure);
  }

  lemma NoYield(source: seq<Yield>, failure: Option<string>, i: nat, sent: seq<Event>, answer: string)
    requires i == |source| && Sent(source, failure) == sent + Sent(source[i..], failure)
    ensures Sent(source, failure) == sent + if failure.Some? then [Error(failure.value)] else []
    ensures Collected(answer, source[i..]) == answer
  {
  }

  lemma NoFrames(json: Json, source: seq<Yield>, failure: Option<string>)
    ensures Frames(json, []) == [] && |AllFrames(json, source, failure)| > 0
    ensures Prefix(0, AllFrames(json, source, failure)) == []
  {
  }

  lemma OneMoreFrame(json: Json, sent: seq<Event>, e: Event)
    ensures Frames(json, sent + [e]) == Frames(json, sent) + [Frame(DataLine(json.dumps(e)))]
    ensures |Frames(json, sent + [e])| == |sent| + 1
  {
    assert (sent + [e])[..|sent|] == sent;
    FramesAppend(json, sent + [e], []);
  }

  /** A consumer that has taken the frames of `sent`. */
  lemma SomeFrames(json: Json, source: seq<Yield>, failure: Option<string>, sent: seq<Event>, rest: seq<Event>)
    requires Sent(source, failure) == sent + rest
    ensures Prefix(|sent|, AllFrames(json, source, failure)) == Frames(json, sent)
    ensures |Frames(json, sent)| == |sent| < |AllFrames(json, source, failure)|
    ensures rest == [] ==> forall n :: n > |sent| ==>
              Prefix(n, AllFrames(json, source, failure)) == Frames(json, sent) + [Frame(DONE)]
    ensures rest == [] ==> |AllFrames(json, source, failure)| == |sent| + 1
  {
    FramesAppend(json, sent, rest);
    FramesAppend(json, sent + rest, []);
    if rest == [] { assert sent + rest == sent; }
  }

  lemma {:induction false} FramesAppend(json: Json, a: seq<Event>, b: seq<Event>)
    ensures Frames(json, a + b) == Frames(json, a) + Frames(json, b)
    ensures |Frames(json, a)| == |a|
    decreases |a| + |b|
  {
    if b == [] {
      assert a + b == a;
      if a != [] { FramesAppend(json, a[..|a| - 1], []); }
    } else {
      FramesAppend(json, a, b[..|b| - 1]);
      assert (a + b)[..|a + b| - 1] == a + b[..|b| - 1];
    }
  }

  // ---------------------------------------------------------------- lines

  function Joined(chunks: seq<string>): string {
    if chunks == [] then "" else Joined(chunks[..|chunks| - 1]) + chunks[|chunks| - 1]
  }

  function Pushed(lines: seq<string>, c: char): (r: seq<string>)
    requires lines != []
    ensures r != []
  {
    if c == '\n' then lines + [""]
    else lines[..|lines| - 1] + [lines[|lines| - 1] + [c]]
  }

  /** text.split('\n') */
  function Split(text: string): (r: seq<string>)
    ensures r != []
  {
    if text == "" then [""] else Pushed(Split(text[..|text| - 1]), text[|text| - 1])
  }

  /** The finished lines of a text, and what follows the last newline. */
  function Lines(text: string): seq<string> {
    Split(text)[..|Split(text)| - 1]
  }

  function Rest(text: string): string {
    Split(text)[|Split(text)| - 1]
  }

  lemma {:induction false} OneLine(text: string)
    requires '\n' !in text
    ensures Split(text) == [text]
  {
    if text != "" {
      var before, c := text[..|text| - 1], text[|text| - 1];
      OneLine(before);
      assert c != '\n' && before + [c] == text;
      calc {
        Split(text);
        Pushed(Split(before), c);
        Pushed([before], c);
        [before][..0] + [before + [c]];
        [text];
      }
    }
  }

  lemma {:induction false} LinesHaveNoNewline(text: string)
    ensures forall line :: line in Split(text) ==> '\n' !in line
  {
    if text != "" { LinesHaveNoNewline(text[..|text| - 1]); }
  }

  /** Splitting can be resumed: of the text so far only the unfinished line matters. */
  lemma {:induction false} SplitResumes(a: string, b: string)
    ensures Split(a + b) == Lines(a) + Split(Rest(a) + b)
    decreases |b|
  {
    if b == "" {
      LinesHaveNoNewline(a);
      OneLine(Rest(a));
      assert a + b == a && Rest(a) + b == Rest(a);
    } else {
      var b', c := b[..|b| - 1], b[|b| - 1];
      SplitResumes(a, b');
      assert (a + b)[..|a + b| - 1] == a + b' && (Rest(a) + b)[..|Rest(a) + b| - 1] == Rest(a) + b';
      PushedBehind(Lines(a), Split(Rest(a) + b'), c);
    }
  }

  lemma PushedBehind(xs: seq<string>, ys: seq<string>, c: char)
    requires ys != []
    ensures Pushed(xs + ys, c) == xs + Pushed(ys, c)
  {
    assert (xs + ys)[..|xs + ys| - 1] == xs + ys[..|ys| - 1];
  }

  // ---------------------------------------------------------------- the client

  /** What String.prototype.trim removes. */
  predicate IsSpace(c: char) {
    c in {'\t', '\n', '\U{000B}', '\U{000C}', '\r', ' ', '\U{00A0}', '\U{1680}', '\U{2028}', '\U{2029}', '\U{202F}',
          '\U{205F}', '\U{3000}', '\U{FEFF}'}
    || '\U{2000}' <= c <= '\U{200A}'
  }

  function TrimStart(s: string): string {
    if s != "" && IsSpace(s[0]) then TrimStart(s[1..]) else s
  }

  function TrimEnd(s: string): string {
    if s != "" && IsSpace(s[|s| - 1]) then TrimEnd(s[..|s| - 1]) else s
  }

  function Trim(s: string): string {
    TrimEnd(TrimStart(s))
  }

  predicate IsData(line: string) {
    "data:" <= Trim(line)
  }

  function PayloadOf(line: string): string
    requires IsData(line)
  {
    Trim(Trim(line)[5..])
  }

  /** The events a client has acted on, and whether it has stopped with an exception. */
  datatype View = View(seen: seq<Event>, failed: bool)

  const NOTHING_SEEN := View([], false)

  function ActedOn(v: View, e: Event): View {
    if v.failed || e.Other? then v else View(v.seen + [e], e.Error?)
  }

  function Acted(events: seq<Event>): View {
    if events == [] then NOTHING_SEEN
    else ActedOn(Acted(events[..|events| - 1]), events[|events| - 1])
  }

  function OnLine(json: Json, v: View, line: string): View {
    if v.failed || !IsData(line) || PayloadOf(line) == "[DONE]" then v
    else
      match json.parse(PayloadOf(line))
      case Malformed => v
      case Null => v.(failed := true)
      case Value(e) => ActedOn(v, e)
  }

  function OnLines(json: Json, v: View, lines: seq<string>): View {
    if lines == [] then v
    else OnLine(json, OnLines(json, v, lines[..|lines| - 1]), lines[|lines| - 1])
  }

  lemma {:induction false} OnLinesAppend(json: Json, v: View, a: seq<string>, b: seq<string>)
    ensures OnLines(json, v, a + b) == OnLines(json, OnLines(json, v, a), b)
    ensures OnLines(json, v, a).failed ==> OnLines(json, v, a + b) == OnLines(json, v, a)
    decreases |b|
  {
    if b == [] {
      assert a + b == a;
    } else {
      OnLinesAppend(json, v, a, b[..|b| - 1]);
      assert (a + b)[..|a + b| - 1] == a + b[..|b| - 1];
    }
  }

  /** What a client makes of a text depends on the text alone, not on how it was cut into chunks;
      what is left in the buffer is the unfinished line. */
  method StreamChat(json: Json, chunks: seq<string>) returns (view: View, buffer: string)
    ensures view == OnLines(json, NOTHING_SEEN, Lines(Joined(chunks)))
    ensures !view.failed ==> buffer == Rest(Joined(chunks))
  {
    hide Split, OnLines, Joined, Trim, Lines, Rest;
    view, buffer := View([], false), "";
    AtTheStart(json);
    assert chunks[..0] == [];
    for i := 0 to |chunks|
      invariant !view.failed
      invariant view == OnLines(json, NOTHING_SEEN, Lines(Joined(chunks[..i])))
      invariant buffer == Rest(Joined(chunks[..i]))
    {
      OneMoreChunk(json, chunks, i);
      buffer := buffer + chunks[i];
      var lines := Split(buffer);
      assert lines[..|lines| - 1] == Lines(buffer) && lines[|lines| - 1] == Rest(buffer) by { LinesAndRest(buffer); }
      buffer := lines[|lines| - 1];
      lines := lines[..|lines| - 1];
      ghost var start := view;
      NoLines(json, start, lines);
      for k := 0 to |lines|
        invariant !view.failed
        invariant view == OnLines(json, start, lines[..k])
      {
        OneMoreLine(json, start, lines, k);
        var line := lines[k];
        var trimmed := Trim(line);
        if !("data:" <= trimmed) { continue; }
        var payload := Trim(trimmed[5..]);
        if payload == "[DONE]" { continue; }
        match json.parse(payload) {
          case Malformed => continue;
          case Null => view := view.(failed := true);
          case Value(event) =>
            if event.Error? {
              view := View(view.seen + [event], true);
            } else if !event.Other? {
              view := View(view.seen + [event], false);
            }
        }
        if view.failed {
          StoppedEarly(json, chunks, i, start, lines, k + 1);
          return;
        }
      }
      assert lines[..|lines|] == lines;
    }
    assert chunks[..|chunks|] == chunks;
  }

  lemma LinesAndRest(text: string)
    ensures Split(text)[..|Split(text)| - 1] == Lines(text) && Split(text)[|Split(text)| - 1] == Rest(text)
  {
  }

  lemma AtTheStart(json: Json)
    ensures Lines(Joined([])) == [] && Rest(Joined([])) == "" && OnLines(json, NOTHING_SEEN, []) == NOTHING_SEEN
  {
  }

  lemma NoLines(json: Json, v: View, lines: seq<string>)
    ensures OnLines(json, v, lines[..0]) == v
  {
  }

  lemma OneMoreLine(json: Json, v: View, lines: seq<string>, k: nat)
    requires k < |lines|
    ensures OnLines(json, v, lines[..k + 1]) == OnLine(json, OnLines(json, v, lines[..k]), lines[k])
  {
    assert lines[..k + 1][..k] == lines[..k];
  }

  lemma OneMoreChunk(json: Json, chunks: seq<string>, i: nat)
    requires i < |chunks|
    ensures var now, then' := Joined(chunks[..i]), Joined(chunks[..i + 1]);
            var lines := Lines(Rest(now) + chunks[i]);
            && Lines(then') == Lines(now) + lines && Rest(then') == Rest(Rest(now) + chunks[i])
            && OnLines(json, NOTHING_SEEN, Lines(then')) ==
               OnLines(json, OnLines(json, NOTHING_SEEN, Lines(now)), lines)
  {
    assert chunks[..i + 1][..i] == chunks[..i];
    var now := Joined(chunks[..i]);
    SplitResumes(now, chunks[i]);
    OnLinesAppend(json, NOTHING_SEEN, Lines(now), Lines(Rest(now) + chunks[i]));
  }

  /** Lines after the one a client stopped at do not matter. */
  lemma StoppedEarly(json: Json, chunks: seq<string>, i: nat, start: View, lines: seq<string>, k: nat)
    requires i < |chunks| && lines == Lines(Rest(Joined(chunks[..i])) + chunks[i]) && k <= |lines|
    requires start == OnLines(json, NOTHING_SEEN, Lines(Joined(chunks[..i]))) && OnLines(json, start, lines[..k]).failed
    ensures OnLines(json, NOTHING_SEEN, Lines(Joined(chunks))) == OnLines(json, start, lines[..k])
  {
    hide Split, OnLines, Joined, Lines, Rest;
    OneMoreChunk(json, chunks, i);
    JoinedFrom(chunks, i + 1);
    var now, all := Lines(Joined(chunks[..i + 1])), Lines(Joined(chunks));
    LinesGrow(Joined(chunks[..i + 1]), Joined(chunks[i + 1..]));
    StaysStopped(json, start, lines[..k], lines);
    StaysStopped(json, NOTHING_SEEN, now, all);
  }

  lemma StaysStopped(json: Json, v: View, some: seq<string>, all: seq<string>)
    requires some <= all && OnLines(json, v, some).failed
    ensures OnLines(json, v, all) == OnLines(json, v, some)
  {
    assert some + all[|some|..] == all;
    OnLinesAppend(json, v, some, all[|some|..]);
  }

  lemma LinesGrow(a: string, b: string)
    ensures Lines(a) <= Lines(a + b)
  {
    SplitResumes(a, b);
  }

  lemma {:induction false} JoinedFrom(chunks: seq<string>, i: nat)
    requires i <= |chunks|
    ensures Joined(chunks) == Joined(chunks[..i]) + Joined(chunks[i..])
    decreases |chunks|
  {
    if i == |chunks| {
      assert chunks[..i] == chunks;
    } else {
      var front := chunks[..|chunks| - 1];
      JoinedFrom(front, i);
      assert front[..i] == chunks[..i];
      assert chunks[i..][..|chunks| - i - 1] == front[i..];
    }
  }

  // ---------------------------------------------------------------- what the reader's parts do

  /** The pieces of a split, put together again with newlines, are the text; and no piece has one. */
  function Rejoined(lines: seq<string>): string
    requires lines != []
  {
    if |lines| == 1 then lines[0] else Rejoined(lines[..|lines| - 1]) + "\n" + lines[|lines| - 1]
  }

  lemma {:induction false} SplitLosesNothing(text: string)
    ensures Rejoined(Split(text)) == text && forall line :: line in Split(text) ==> '\n' !in line
  {
    LinesHaveNoNewline(text);
    if text != "" {
      var before, c := text[..|text| - 1], text[|text| - 1];
      SplitLosesNothing(before);
      RejoinedPushed(Split(before), c);
      assert before + [c] == text;
    }
  }

  lemma RejoinedPushed(lines: seq<string>, c: char)
    requires lines != []
    ensures Rejoined(Pushed(lines, c)) == Rejoined(lines) + [c]
  {
    var r := Pushed(lines, c);
    if c == '\n' {
      assert r[..|r| - 1] == lines;
    } else if |lines| > 1 {
      assert r[..|r| - 1] == lines[..|lines| - 1];
    }
  }

  /** Trimming takes white space off both ends and nothing else. */
  lemma {:induction false} TrimStartTakesSpace(s: string)
    ensures |TrimStart(s)| <= |s| && TrimStart(s) == s[|s| - |TrimStart(s)|..]
    ensures forall i :: 0 <= i < |s| - |TrimStart(s)| ==> IsSpace(s[i])
    ensures TrimStart(s) != "" ==> !IsSpace(TrimStart(s)[0])
  {
    if s != "" && IsSpace(s[0]) {
      TrimStartTakesSpace(s[1..]);
      assert forall i :: 0 < i < |s| ==> s[i] == s[1..][i - 1];
    }
  }

  lemma {:induction false} TrimEndTakesSpace(s: string)
    ensures TrimEnd(s) <= s && forall i :: |TrimEnd(s)| <= i < |s| ==> IsSpace(s[i])
    ensures TrimEnd(s) != "" ==> !IsSpace(TrimEnd(s)[|TrimEnd(s)| - 1])
  {
    if s != "" && IsSpace(s[|s| - 1]) { TrimEndTakesSpace(s[..|s| - 1]); }
  }

  lemma TrimTakesSpace(s: string) returns (a: nat, b: nat)
    ensures a <= b <= |s| && Trim(s) == s[a..b]
    ensures forall i :: 0 <= i < a || b <= i < |s| ==> IsSpace(s[i])
    ensures Trim(s) != "" ==> !IsSpace(Trim(s)[0]) && !IsSpace(Trim(s)[|Trim(s)| - 1])
  {
    TrimStartTakesSpace(s);
    TrimEndTakesSpace(TrimStart(s));
    a := |s| - |TrimStart(s)|;
    b := a + |Trim(s)|;
    assert forall i :: 0 <= i < |TrimStart(s)| ==> TrimStart(s)[i] == s[a + i];
  }

  /** A line that does not begin with "data:", or whose payload is the terminator or no JSON. */
  predicate IsNoise(json: Json, line: string) {
    !("data:" <= Trim(line)) || Trim(Trim(line)[5..]) == "[DONE]" || json.parse(Trim(Trim(line)[5..])).Malformed?
  }

  /** Such a line makes no difference, wherever it comes; a null payload ends the reading. */
  lemma NoiseIsIgnored(json: Json, v: View, before: seq<string>, line: string, after: seq<string>)
    ensures IsNoise(json, line) ==> OnLines(json, v, before + [line] + after) == OnLines(json, v, before + after)
    ensures !v.failed && !IsNoise(json, line) && json.parse(Trim(Trim(line)[5..])).Null? ==>
              OnLines(json, v, [line] + after) == View(v.seen, true)
  {
    hide Trim;
    OnLinesAppend(json, v, before + [line], after);
    OnLinesAppend(json, v, before, [line]);
    OnLinesAppend(json, v, before, after);
    OnLinesAppend(json, v, [line], after);
    NoLines(json, OnLines(json, v, before), [line]);
    NoLines(json, v, [line]);
    OneMoreLine(json, OnLines(json, v, before), [line], 0);
    OneMoreLine(json, v, [line], 0);
    assert [line][..1] == [line];
  }

  /** What a client acts on, by position: every event it knows up to the first error, that one
      included. */
  lemma {:induction false} ActedUpToTheFirstError(events: seq<Event>, n: nat)
    requires n <= |events| && forall i :: 0 <= i < n ==> !events[i].Error? && !events[i].Other?
    requires n < |events| ==> events[n].Error?
    ensures Acted(events) ==
            if n < |events| then View(events[..n + 1], true) else View(events, false)
    decreases |events|
  {
    if events != [] {
      var before, e := events[..|events| - 1], events[|events| - 1];
      if n < |events| - 1 {
        ActedUpToTheFirstError(before, n);
        assert before[..n + 1] == events[..n + 1];
      } else {
        ActedUpToTheFirstError(before, |before|);
        assert before + [e] == events;
        if n < |events| { assert events[..n + 1] == events; }
      }
    }
  }

  // ---------------------------------------------------------------- round trip

  /** The lines of a framed sequence of events: a data line and a blank line each. */
  function WireLines(json: Json, events: seq<Event>): seq<string> {
    if events == [] then []
    else WireLines(json, events[..|events| - 1]) + [DataLine(json.dumps(events[|events| - 1])), ""]
  }

  lemma SplitFrame(line: string)
    requires '\n' !in line
    ensures Split(Frame(line)) == [line, "", ""]
  {
    var once := line + "\n";
    OneLine(line);
    assert Frame(line)[..|Frame(line)| - 1] == once && once[..|once| - 1] == line;
    assert Split(once) == [line, ""];
  }

  /** A frame added to a text that ends between frames. */
  lemma FrameAdded(text: string, line: string)
    requires Rest(text) == "" && '\n' !in line
    ensures Lines(text + Frame(line)) == Lines(text) + [line, ""] && Rest(text + Frame(line)) == ""
  {
    SplitResumes(text, Frame(line));
    assert "" + Frame(line) == Frame(line);
    SplitFrame(line);
  }

  lemma {:induction false} FramedLines(json: Json, events: seq<Event>)
    requires Faithful(json)
    ensures Lines(Joined(Frames(json, events))) == WireLines(json, events) && Rest(Joined(Frames(json, events))) == ""
  {
    hide Split, Frame, Lines, Rest;
    if events == [] {
      AtTheStart(json);
    } else {
      var before, e := events[..|events| - 1], events[|events| - 1];
      FramedLines(json, before);
      var frames := Frames(json, events);
      assert frames[..|frames| - 1] == Frames(json, before);
      assert IsPayload(json.dumps(e));
      FrameAdded(Joined(Frames(json, before)), DataLine(json.dumps(e)));
    }
  }

  lemma TrimmedAlready(s: string)
    requires s == "" || (!IsSpace(s[0]) && !IsSpace(s[|s| - 1]))
    ensures Trim(s) == s
  {
  }

  lemma OnDataLine(json: Json, v: View, e: Event)
    requires Faithful(json)
    ensures OnLine(json, v, DataLine(json.dumps(e))) == ActedOn(v, e)
  {
    var payload := json.dumps(e);
    assert json.parse(payload) == Value(e) && IsPayload(payload);
    var line := DataLine(payload);
    TrimmedAlready(line);
    assert line[5..] == " " + payload && (" " + payload)[1..] == payload;
    TrimmedAlready(payload);
    assert TrimStart(" " + payload) == TrimStart(payload);
    assert PayloadOf(line) == payload && payload[0] != "[DONE]"[0];
  }

  lemma OnOtherLines(json: Json, v: View)
    ensures OnLine(json, v, "") == v && OnLine(json, v, DONE) == v
  {
    TrimmedAlready("");
    TrimmedAlready(DONE);
    assert DONE[5..] == " [DONE]" && " [DONE]"[1..] == "[DONE]";
    TrimmedAlready("[DONE]");
    assert TrimStart(" [DONE]") == TrimStart("[DONE]");
  }

  /** Any number of whole lines of the wire gives a number of whole events. */
  lemma {:induction false} WireLinesRead(json: Json, events: seq<Event>, n: nat)
    requires Faithful(json) && n <= |WireLines(json, events)|
    ensures |WireLines(json, events)| == 2 * |events|
    ensures OnLines(json, NOTHING_SEEN, WireLines(json, events)[..n]) == Acted(events[..(n + 1) / 2])
  {
    hide OnLine, ActedOn, Trim, DataLine;
    var lines := WireLines(json, events);
    if events != [] {
      var before, e := events[..|events| - 1], events[|events| - 1];
      var old' := WireLines(json, before);
      WireLinesRead(json, before, if n <= |old'| then n else |old'|);
      if n <= |old'| {
        assert lines[..n] == old'[..n] && events[..(n + 1) / 2] == before[..(n + 1) / 2];
      } else {
        assert old'[..|old'|] == old' && before[..|before|] == before;
        assert events[..(n + 1) / 2] == events;
        OneMoreLine(json, NOTHING_SEEN, lines, |old'|);
        assert lines[..|old'|] == old';
        OnDataLine(json, Acted(before), e);
        if n == |old'| + 2 {
          OneMoreLine(json, NOTHING_SEEN, lines, |old'| + 1);
          OnOtherLines(json, Acted(events));
        }
      }
    }
  }

  /** The text of a whole stream. */
  function Wire(json: Json, events: seq<Event>): string {
    Joined(Frames(json, events) + [Frame(DONE)])
  }

  lemma WireSplits(json: Json, events: seq<Event>)
    requires Faithful(json)
    ensures Lines(Wire(json, events)) == WireLines(json, events) + [DONE, ""] && Rest(Wire(json, events)) == ""
  {
    hide Split, Frame, Lines, Rest;
    FramedLines(json, events);
    var frames := Frames(json, events) + [Frame(DONE)];
    assert frames[..|frames| - 1] == Frames(json, events);
    FrameAdded(Joined(Frames(json, events)), DONE);
  }

  /** However a stream is cut into chunks, the client acts on exactly the events that were framed,
      in order, up to the first error, and nothing is left unread. A stream that breaks off
      anywhere, even inside a frame, gives a prefix of the events. */
  lemma RoundTrip(json: Json, events: seq<Event>, n: nat)
    requires Faithful(json) && n <= |Wire(json, events)|
    ensures OnLines(json, NOTHING_SEEN, Lines(Wire(json, events))) == Acted(events)
    ensures Rest(Wire(json, events)) == ""
    ensures exists k :: 0 <= k <= |events| &&
                        OnLines(json, NOTHING_SEEN, Lines(Wire(json, events)[..n])) == Acted(events[..k])
  {
    hide Wire, Split, Lines, OnLine, OnLines, Acted, WireLines;
    WireSplits(json, events);
    WireRead(json, events, |Lines(Wire(json, events))|);
    var wire := Wire(json, events);
    assert Lines(wire)[..|Lines(wire)|] == Lines(wire) && events[..|events|] == events;
    assert wire[..n] + wire[n..] == wire;
    LinesGrow(wire[..n], wire[n..]);
    var m := |Lines(wire[..n])|;
    assert Lines(wire[..n]) == Lines(wire)[..m];
    WireRead(json, events, m);
  }

  lemma WireRead(json: Json, events: seq<Event>, m: nat)
    requires Faithful(json) && m <= |WireLines(json, events) + [DONE, ""]|
    ensures |WireLines(json, events)| == 2 * |events|
    ensures var k := if m <= 2 * |events| then (m + 1) / 2 else |events|;
            OnLines(json, NOTHING_SEEN, (WireLines(json, events) + [DONE, ""])[..m]) == Acted(events[..k])
  {
    hide OnLine, Acted, WireLines;
    var some := WireLines(json, events);
    var lines := some + [DONE, ""];
    WireLinesRead(json, events, 0);
    if m <= |some| {
      WireLinesRead(json, events, m);
      assert lines[..m] == some[..m];
    } else {
      WireLinesRead(json, events, |some|);
      assert lines[..|some|] == some && some[..|some|] == some;
      OnOtherLines(json, Acted(events[..|events|]));
      OneMoreLine(json, NOTHING_SEEN, lines, |some|);
      if m == |some| + 2 { OneMoreLine(json, NOTHING_SEEN, lines, |some| + 1); }
    }
  }

  // ---------------------------------------------------------------- from the executor to the browser

  /** What a stream of tool calls, results and answers looks like at its source. */
  predicate IsReport(e: Event) {
    e.ToolCall? || e.ToolResult? || e.Done?
  }

  lemma OneMoreEvent(events: seq<Event>, e: Event)
    requires Acted(events) == View(events, false) && !e.Other?
    ensures Acted(events + [e]) == View(events + [e], e.Error?)
  {
    assert (events + [e])[..|events|] == events;
  }

  lemma {:induction false} ReportsAreSeen(events: seq<Event>)
    requires forall e :: e in events ==> IsReport(e)
    ensures Acted(events) == View(events, false)
  {
    hide ActedOn;
    if events == [] {
    } else {
      var before, e := events[..|events| - 1], events[|events| - 1];
      assert IsReport(e);
      ReportsAreSeen(before);
      OneMoreEvent(before, e);
      assert before + [e] == events;
    }
  }

  function HeardLast(answer: string, events: seq<Event>): string
    decreases |events|
  {
    if events == [] then answer else HeardLast(Heard(answer, events[0]), events[1..])
  }

  /** The error a stream ends with, if it does. */
  function FaultOf(source: seq<Yield>, failure: Option<string>): Option<string> {
    if source == [] then failure
    else if source[0].fault.Some? then source[0].fault
    else FaultOf(source[1..], failure)
  }

  /** The events before the exception. */
  function Delivered(source: seq<Yield>): seq<Event> {
    if source == [] || source[0].fault.Some? then [] else [source[0].event] + Delivered(source[1..])
  }

  lemma {:induction false} SentIsDelivered(source: seq<Yield>, failure: Option<string>, answer: string)
    requires forall y :: y in source ==> IsReport(y.event)
    requires forall y :: y in source && y.fault.Some? ==> !(y.event.Done? && y.event.answer.Text?)
    ensures Sent(source, failure) ==
            Delivered(source) +
            if FaultOf(source, failure).Some? then [Error(FaultOf(source, failure).value)] else []
    ensures forall e :: e in Delivered(source) ==> IsReport(e)
    ensures Collected(answer, source) == HeardLast(answer, Delivered(source))
    decreases |source|
  {
    if source != [] && source[0].fault.None? {
      SentIsDelivered(source[1..], failure, Heard(answer, source[0].event));
    }
  }

  /** The browser and the session file agree on a stream read to its end: the browser sees every
      event sent before an exception, and then the error it stops at; the answer handed to the
      session log is the last one the browser saw. Answers are text, so encoding one never fails. */
  lemma BrowserAndLogAgree(json: Json, source: seq<Yield>, failure: Option<string>)
    requires Faithful(json)
    requires forall y :: y in source ==> IsReport(y.event)
    requires forall y :: y in source && y.fault.Some? ==> !(y.event.Done? && y.event.answer.Text?)
    ensures var view := OnLines(json, NOTHING_SEEN, Lines(Joined(AllFrames(json, source, failure))));
            && view.failed == FaultOf(source, failure).Some?
            && view.seen == Sent(source, failure)
            && Collected("", source) == HeardLast("", Delivered(source))
            && Delivered(source) <= view.seen
  {
    hide OnLines, Lines, Collected, Sent, Frames, Delivered, FaultOf, HeardLast;
    var sent := Sent(source, failure);
    RoundTrip(json, sent, 0);
    assert Wire(json, sent) == Joined(AllFrames(json, source, failure));
    SentIsDelivered(source, failure, "");
    ReportsAreSeen(Delivered(source));
    if FaultOf(source, failure).Some? {
      OneMoreEvent(Delivered(source), Error(FaultOf(source, failure).value));
    } else {
      assert sent == Delivered(source);
    }
  }

  function Unfaulted(events: seq<Event>): seq<Yield> {
    seq(|events|, i requires 0 <= i < |events| => Yield(events[i], None))
  }

  lemma {:induction false} UnfaultedSent(events: seq<Event>)
    ensures Sent(Unfaulted(events), None) == events
    decreases |events|
  {
    if events != [] {
      UnfaultedSent(events[1..]);
      assert Unfaulted(events)[1..] == Unfaulted(events[1..]);
      assert [events[0]] + events[1..] == events;
    }
  }

  /** The last answer a list of events carries, by position. */
  ghost predicate IsLastText(events: seq<Event>, text: string) {
    || (exists i :: 0 <= i < |events| && events[i] == Done(Text(text)) &&
                    forall j :: i < j < |events| ==> !IsTextAnswer(events[j]))
    || (text == "" && forall i :: 0 <= i < |events| ==> !IsTextAnswer(events[i]))
  }

  lemma {:induction false} HeardIsCollected(answer: string, events: seq<Event>)
    ensures HeardLast(answer, events) == Collected(answer, Unfaulted(events))
    decreases |events|
  {
    if events != [] {
      assert Unfaulted(events)[1..] == Unfaulted(events[1..]);
      HeardIsCollected(Heard(answer, events[0]), events[1..]);
    }
  }

  lemma HeardIsLastText(events: seq<Event>)
    ensures IsLastText(events, HeardLast("", events))
  {
    var source, text := Unfaulted(events), HeardLast("", events);
    HeardIsCollected("", events);
    CollectedIffAnswer(source, text);
    assert forall i :: 0 <= i < |events| ==> Reached(source, i) && source[i].event == events[i];
  }

  /** End to end: the tool calls and results a browser lists for a streamed run are those the same
      run returns when it is not streamed, however langchain groups the steps and however the
      network cuts the text. */
  lemma BrowserSeesTheRun(json: Json, events: seq<ExecutorEvent>)
    requires Faithful(json)
    ensures var source := Unfaulted(Streamed(events));
            var view := OnLines(json, NOTHING_SEEN, Lines(Joined(AllFrames(json, source, None))));
            && !view.failed && Paired(view.seen)
            && Calls(view.seen) == CallsOf(StepsOf(events))
            && Outcomes(view.seen) == OutcomesOf(StepsOf(events))
            && Answers(view.seen) == Outputs(events)
  {
    hide OnLines, Lines, Sent, Frames, Streamed, StepsOf;
    hide Calls, Outcomes, Answers, Outputs, Paired, CallsOf, OutcomesOf;
    var sent := Streamed(events);
    AnswersAreOutputs(events);
    StreamAgreesWithRun(events);
    UnfaultedSent(sent);
    RoundTrip(json, sent, 0);
    assert Wire(json, sent) == Joined(AllFrames(json, Unfaulted(sent), None));
    ReportsAreSeen(sent);
  }
}
